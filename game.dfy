/**
  The game driver of n-back.cpp, NBackGame, without its terminal and
  network plumbing: generating stimuli from the random stream, the shared
  sequence of a multiplayer session, the scoring of each trial, one
  player's session, and the multiplayer session.

  What presentStimulusAndGetResponse reads from the keyboard and the
  latency measured around it become the `Response` values of a session;
  rand() becomes the stream `randomStream` read at `cursor`.
*/
module Game {
  import opened Wrappers
  import opened Stimuli
  import opened Scoring
  import opened Achievements

  /** A player of a session: the name, the career record and the active flag. */
  datatype Player = Player(name: string, careerStats: PlayerStats, isActive: bool)

  /**
    The stimuli of the first m trials of a session and where its draws
    stopped: trial i is replayed from `predefined` when the game replays a
    sequence that reaches that far, and drawn afresh otherwise, from where
    trial i - 1 stopped and against the stimulus n trials back.
  */
  function SessionRun(rand: nat -> nat, replay: bool, predefined: seq<Stimulus>, n: int, k: nat, m: nat)
    : (d: Drawn<seq<Stimulus>>)
    ensures |d.value| == m
  {
    if m == 0 then Drawn([], k)
    else
      var prev := SessionRun(rand, replay, predefined, n, k, m - 1);
      if replay && m - 1 < |predefined| then Drawn(prev.value + [predefined[m - 1]], prev.next)
      else Extend(rand, n, prev)
  }

  /** The value of an accuracy field after calculateAccuracies on a record that started at zero. */
  function AccuracyOrZero(t: Tally): real {
    if t.Total() > 0 then Accuracy(t) else 0.0
  }

  /** The summary of a finished session of level n whose scoring fields are `s`. */
  function Finish(n: int, s: Score): Summary {
    Summary(n, s.totalTrials, AccuracyOrZero(s.visual), AccuracyOrZero(s.auditory),
            if s.visual.Total() + s.auditory.Total() > 0 then PooledAccuracy(s.visual, s.auditory) else 0.0,
            s.responseTimeAvg)
  }

  /**
    A player's career record after a session with summary g: the career
    update of AchievementSystem::updatePlayerStats, then the checks of
    checkAchievements.
  */
  function SessionCareer(stats: PlayerStats, g: Summary): PlayerStats {
    AfterCheck(CareerAfter(stats, g), g)
  }

  /**
    The result of a session of the player `name` shown `shown`, the first m
    of `responses` given, with the counter preset to `preset`: the scores
    of those trials and the summary of the finished session.
  */
  predicate ScoredOn(result: SessionResult, name: string, shown: seq<Stimulus>, n: int, responses: seq<Response>,
                   preset: int, m: nat)
    requires n >= 1 && m <= |shown| && m <= |responses|
  {
    result.playerName == name && result.score == Scored(shown, n, responses, preset, m) &&
    result.summary == Finish(n, result.score)
  }

  /** Replaying a sequence long enough draws nothing and shows its first m stimuli. */
  lemma {:induction false} ReplayRun(rand: nat -> nat, predefined: seq<Stimulus>, n: int, k: nat, m: nat)
    requires m <= |predefined|
    ensures SessionRun(rand, true, predefined, n, k, m) == Drawn(predefined[..m], k)
  {
    if m > 0 {
      ReplayRun(rand, predefined, n, k, m - 1);
      assert predefined[..m] == predefined[..m - 1] + [predefined[m - 1]];
    }
  }

  /** Without a sequence to replay, a session shows a fresh run. */
  lemma {:induction false} FreshSession(rand: nat -> nat, predefined: seq<Stimulus>, n: int, k: nat, m: nat)
    ensures SessionRun(rand, false, predefined, n, k, m) == FreshRun(n, rand, k, m)
  {
    if m > 0 {
      FreshSession(rand, predefined, n, k, m - 1);
    }
  }

  /**
    A finished session of m trials: every trial was counted in both
    modalities on top of the preset counter, and the three accuracies are
    percentages. A session without trials reports all three accuracies and
    the mean latency as 0.
  */
  lemma FinishedSession(shown: seq<Stimulus>, n: int, responses: seq<Response>, preset: int, m: nat)
    requires n >= 1 && m <= |shown| && m <= |responses|
    ensures var g := Finish(n, Scored(shown, n, responses, preset, m));
            g.nValue == n && g.totalTrials == preset + m &&
            0.0 <= g.visualAccuracy <= 100.0 && 0.0 <= g.auditoryAccuracy <= 100.0 &&
            0.0 <= g.overallAccuracy <= 100.0 &&
            (m == 0 ==> g.visualAccuracy == g.auditoryAccuracy == g.overallAccuracy == g.responseTimeAvg == 0.0)
  {
    if m > 0 {
      var s := Scored(shown, n, responses, preset, m);
      ScoredTrialCount(shown, n, responses, preset, m);
      ScoredCounts(shown, n, responses, preset, m, Visual);
      ScoredCounts(shown, n, responses, preset, m, Auditory);
      AccuracyInRange(s.visual);
      AccuracyInRange(s.auditory);
      PooledBetween(s.visual, s.auditory);
    }
  }

  class NBackGame {
    /** The level N. */
    const n: int
    /** The number of trials of a session, as given (not validated). */
    const totalTrials: int
    /** The values rand() returns, in order. */
    const randomStream: nat -> nat
    /** The position in randomStream of the next rand() call. */
    var cursor: nat
    var currentTrial: int
    var stimulusHistory: seq<Stimulus>
    var players: seq<Player>
    var predefinedStimuli: seq<Stimulus>
    var usePredefinedSequence: bool
    const achievementSys: AchievementSystem

    /** The number of trials a session runs: totalTrials, or none when it is not positive. */
    function TrialCount(): nat {
      if totalTrials > 0 then totalTrials else 0
    }

    /**
      A game of level nValue with `trials` trials, the records `saved` read
      at start-up, and rand() returning the values of `rand`.
    */
    constructor(nValue: int, trials: int, rand: nat -> nat, saved: map<string, PlayerStats>)
      requires nValue >= 1
      ensures n == nValue && totalTrials == trials && randomStream == rand && cursor == 0
      ensures currentTrial == 0 && stimulusHistory == [] && players == []
      ensures predefinedStimuli == [] && !usePredefinedSequence
      ensures fresh(achievementSys) && achievementSys.allPlayers == saved
    {
      n := nValue;
      totalTrials := trials;
      randomStream := rand;
      cursor := 0;
      currentTrial := 0;
      stimulusHistory := [];
      players := [];
      predefinedStimuli := [];
      usePredefinedSequence := false;
      achievementSys := new AchievementSystem(saved);
    }

    /** rand(): the next value of the stream. */
    method Rand() returns (r: nat)
      modifies this`cursor
      ensures r == randomStream(old(cursor)) && cursor == old(cursor) + 1
    {
      r := randomStream(cursor);
      cursor := cursor + 1;
    }

    /** Adds a player with the career record the store holds for `name`. */
    method AddPlayer(name: string)
      modifies this`players, achievementSys
      ensures achievementSys.allPlayers == StoreAfterGet(old(achievementSys.allPlayers), name)
      ensures players == old(players) + [Player(name, achievementSys.allPlayers[name], true)]
    {
      var stats := achievementSys.GetPlayerStats(name);
      players := players + [Player(name, stats, true)];
    }

    /**
      The stimulus of trial `trialIndex`: replayed from the shared sequence
      when there is one that reaches that far, otherwise drawn from the
      stream against the stimulus n trials back in the history.
    */
    method GenerateStimulus(trialIndex: int) returns (stim: Stimulus)
      requires n >= 1 && trialIndex >= 0
      requires !(usePredefinedSequence && trialIndex < |predefinedStimuli|) && trialIndex >= n ==>
                 trialIndex - n < |stimulusHistory|
      modifies this`cursor
      ensures usePredefinedSequence && trialIndex < |predefinedStimuli| ==>
                stim == predefinedStimuli[trialIndex] && cursor == old(cursor)
      ensures !(usePredefinedSequence && trialIndex < |predefinedStimuli|) ==>
                Drawn(stim, cursor) == FreshStimulus(randomStream, old(cursor), NBack(stimulusHistory, n, trialIndex))
    {
      if usePredefinedSequence && trialIndex < |predefinedStimuli| {
        return predefinedStimuli[trialIndex];
      }
      stim := DrawStimulus(trialIndex);
    }

    /**
      The drawing part of generateStimulus: the two coins when there is a
      stimulus n trials back, then the position and the letter, each copied
      when its coin said so and drawn otherwise.
    */
    method DrawStimulus(trialIndex: int) returns (stim: Stimulus)
      requires n >= 1 && trialIndex >= 0 && (trialIndex >= n ==> trialIndex - n < |stimulusHistory|)
      modifies this`cursor
      ensures Drawn(stim, cursor) == FreshStimulus(randomStream, old(cursor), NBack(stimulusHistory, n, trialIndex))
    {
      ghost var start := cursor;
      var shouldMatchVisual, shouldMatchAuditory := DrawCoins(trialIndex);
      FreshStimulusParts(randomStream, start, NBack(stimulusHistory, n, trialIndex), shouldMatchVisual, shouldMatchAuditory);
      var position := PickPosition(trialIndex, shouldMatchVisual);
      var letter := PickLetter(trialIndex, shouldMatchAuditory);
      stim := Stimulus(position, letter);
    }

    /**
      The two match coins, visual first, each a 30% chance; neither is drawn
      while there is no stimulus n trials back.
    */
    method DrawCoins(trialIndex: int) returns (shouldMatchVisual: bool, shouldMatchAuditory: bool)
      requires n >= 1 && trialIndex >= 0 && (trialIndex >= n ==> trialIndex - n < |stimulusHistory|)
      modifies this`cursor
      ensures var compare := NBack(stimulusHistory, n, trialIndex).Some?;
              shouldMatchVisual == (compare && Coin(randomStream, old(cursor))) &&
              shouldMatchAuditory == (compare && Coin(randomStream, old(cursor) + 1)) &&
              cursor == (if compare then old(cursor) + 2 else old(cursor))
    {
      shouldMatchVisual := false;
      if trialIndex >= n {
        var r := Rand();
        shouldMatchVisual := r % 100 < MatchPercent;
      }
      shouldMatchAuditory := false;
      if trialIndex >= n {
        var r := Rand();
        shouldMatchAuditory := r % 100 < MatchPercent;
      }
    }

    /**
      The position of a fresh stimulus: the one n trials back when the
      visual coin said so, otherwise the retry loop.
    */
    method PickPosition(trialIndex: int, coin: bool) returns (position: int)
      requires n >= 1 && trialIndex >= 0 && (trialIndex >= n ==> trialIndex - n < |stimulusHistory|)
      requires coin ==> trialIndex >= n
      modifies this`cursor
      ensures Drawn(position, cursor)
              == Pick(coin, BackCode(NBack(stimulusHistory, n, trialIndex), Visual), randomStream, Visual, old(cursor))
    {
      if coin && trialIndex >= n {
        position := stimulusHistory[trialIndex - n].visualPosition;
      } else {
        position := DrawPosition(trialIndex);
      }
    }

    /**
      The letter of a fresh stimulus: the one n trials back when the
      auditory coin said so, otherwise the retry loop.
    */
    method PickLetter(trialIndex: int, coin: bool) returns (letter: char)
      requires n >= 1 && trialIndex >= 0 && (trialIndex >= n ==> trialIndex - n < |stimulusHistory|)
      requires coin ==> trialIndex >= n
      modifies this`cursor
      ensures var back := NBack(stimulusHistory, n, trialIndex);
              var d := Pick(coin, BackCode(back, Auditory), randomStream, Auditory, old(cursor));
              letter == (if coin then back.value.auditoryLetter else LetterAt(d.value)) && cursor == d.next
    {
      if coin && trialIndex >= n {
        letter := stimulusHistory[trialIndex - n].auditoryLetter;
      } else {
        letter := DrawLetter(trialIndex);
      }
    }

    /**
      The do-while loop of the non-match branch for the position: draw a
      cell, and draw again, up to MaxAttempts draws in all, while it equals
      the position n trials back.
    */
    method DrawPosition(trialIndex: int) returns (position: int)
      requires n >= 1 && trialIndex >= 0 && (trialIndex >= n ==> trialIndex - n < |stimulusHistory|)
      modifies this`cursor
      ensures Drawn(position, cursor)
              == Retry(randomStream, Visual, old(cursor), BackCode(NBack(stimulusHistory, n, trialIndex), Visual), MaxAttempts)
    {
      ghost var avoid := BackCode(NBack(stimulusHistory, n, trialIndex), Visual);
      ghost var start := cursor;
      var r := Rand();
      position := r % Cells;
      var attempts := 1;
      while trialIndex >= n && position == stimulusHistory[trialIndex - n].visualPosition && attempts < MaxAttempts
        invariant 1 <= attempts <= MaxAttempts && cursor == start + attempts
        invariant position == Draw(randomStream, Visual, cursor - 1)
        invariant forall i :: start <= i < cursor - 1 ==> avoid == Some(Draw(randomStream, Visual, i))
        decreases MaxAttempts - attempts
      {
        r := Rand();
        position := r % Cells;
        attempts := attempts + 1;
      }
      ghost var last := cursor - 1;
      assert position == Draw(randomStream, Visual, last) && cursor == last + 1;
      RetryEndsAt(randomStream, Visual, start, avoid, MaxAttempts, last);
    }

    /**
      The do-while loop of the non-match branch for the letter: draw a
      letter, and draw again, up to MaxAttempts draws in all, while it
      equals the letter n trials back.
    */
    method DrawLetter(trialIndex: int) returns (letter: char)
      requires n >= 1 && trialIndex >= 0 && (trialIndex >= n ==> trialIndex - n < |stimulusHistory|)
      modifies this`cursor
      ensures var d := Retry(randomStream, Auditory, old(cursor), BackCode(NBack(stimulusHistory, n, trialIndex), Auditory),
                             MaxAttempts);
              letter == LetterAt(d.value) && cursor == d.next
    {
      ghost var avoid := BackCode(NBack(stimulusHistory, n, trialIndex), Auditory);
      ghost var start := cursor;
      var r := Rand();
      letter := LetterAt(r % AlphabetSize);
      var attempts := 1;
      while trialIndex >= n && letter == stimulusHistory[trialIndex - n].auditoryLetter && attempts < MaxAttempts
        invariant 1 <= attempts <= MaxAttempts && cursor == start + attempts
        invariant letter == LetterAt(Draw(randomStream, Auditory, cursor - 1))
        invariant forall i :: start <= i < cursor - 1 ==> avoid == Some(Draw(randomStream, Auditory, i))
        decreases MaxAttempts - attempts
      {
        LetterAtMatches(Draw(randomStream, Auditory, cursor - 1), stimulusHistory[trialIndex - n].auditoryLetter);
        r := Rand();
        letter := LetterAt(r % AlphabetSize);
        attempts := attempts + 1;
      }
      if trialIndex >= n {
        LetterAtMatches(Draw(randomStream, Auditory, cursor - 1), stimulusHistory[trialIndex - n].auditoryLetter);
      }
      ghost var last := cursor - 1;
      assert letter == LetterAt(Draw(randomStream, Auditory, last)) && cursor == last + 1;
      RetryEndsAt(randomStream, Auditory, start, avoid, MaxAttempts, last);
    }

    /**
      Builds the shared sequence of a multiplayer session: totalTrials
      stimuli drawn as a fresh run, kept for replay, with the history
      cleared afterwards.
    */
    method GeneratePredefinedSequence()
      requires n >= 1
      modifies this`predefinedStimuli, this`stimulusHistory, this`usePredefinedSequence, this`cursor
      ensures predefinedStimuli == FreshRun(n, randomStream, old(cursor), TrialCount()).value
      ensures cursor == FreshRun(n, randomStream, old(cursor), TrialCount()).next
      ensures |predefinedStimuli| == TrialCount()
      ensures usePredefinedSequence && stimulusHistory == []
    {
      predefinedStimuli := [];
      stimulusHistory := [];
      ghost var start := cursor;
      var i := 0;
      while i < totalTrials
        invariant 0 <= i <= TrialCount()
        invariant predefinedStimuli == stimulusHistory == FreshRun(n, randomStream, start, i).value
        invariant cursor == FreshRun(n, randomStream, start, i).next
      {
        PredefineTrial(i, start);
        i := i + 1;
      }
      usePredefinedSequence := true;
      stimulusHistory := [];
    }

    /**
      One pass of the loop of generatePredefinedSequence: stimulus i
      generated and appended to both the shared sequence and the history.
    */
    method PredefineTrial(i: nat, ghost start: nat)
      requires n >= 1
      requires predefinedStimuli == stimulusHistory == FreshRun(n, randomStream, start, i).value
      requires cursor == FreshRun(n, randomStream, start, i).next
      modifies this`predefinedStimuli, this`stimulusHistory, this`cursor
      ensures predefinedStimuli == stimulusHistory == FreshRun(n, randomStream, start, i + 1).value
      ensures cursor == FreshRun(n, randomStream, start, i + 1).next
    {
      var stim := GenerateStimulus(i);
      predefinedStimuli := predefinedStimuli + [stim];
      stimulusHistory := stimulusHistory + [stim];
    }

    /**
      The running mean of the latency, once the trial counter has been
      raised: the old mean reweighted when this is not the first trial.
    */
    method UpdateMean(stats: GameStats, responseTime: int)
      modifies stats`responseTimeAvg
      ensures stats.responseTimeAvg == NextMean(old(stats.responseTimeAvg), stats.totalTrials, responseTime)
    {
      if stats.totalTrials > 1 {
        stats.responseTimeAvg := (stats.responseTimeAvg * (stats.totalTrials - 1) as real + responseTime as real)
                                 / stats.totalTrials as real;
      } else {
        stats.responseTimeAvg := responseTime as real;
      }
    }

    /**
      NBackGame::updatePlayerStats: one trial counted, classified in each
      modality, and its latency folded into the running mean.
    */
    method UpdatePlayerStats(stats: GameStats, visualMatch: bool, auditoryMatch: bool,
                             userVisual: bool, userAuditory: bool, responseTime: int)
      modifies stats`totalTrials, stats`responseTimeAvg,
               stats`visualHits, stats`visualMisses, stats`visualFalseAlarms, stats`visualCorrectRejections,
               stats`auditoryHits, stats`auditoryMisses, stats`auditoryFalseAlarms, stats`auditoryCorrectRejections
      ensures stats.Sheet() == RecordTrial(old(stats.Sheet()), Match(visualMatch, auditoryMatch),
                                           Response(userVisual, userAuditory, responseTime))
    {
      stats.totalTrials := stats.totalTrials + 1;

      if visualMatch && userVisual {
        stats.visualHits := stats.visualHits + 1;
      } else if visualMatch && !userVisual {
        stats.visualMisses := stats.visualMisses + 1;
      } else if !visualMatch && userVisual {
        stats.visualFalseAlarms := stats.visualFalseAlarms + 1;
      } else if !visualMatch && !userVisual {
        stats.visualCorrectRejections := stats.visualCorrectRejections + 1;
      }
      assert stats.Visual() == old(stats.Visual()).Record(Classify(visualMatch, userVisual));

      if auditoryMatch && userAuditory {
        stats.auditoryHits := stats.auditoryHits + 1;
      } else if auditoryMatch && !userAuditory {
        stats.auditoryMisses := stats.auditoryMisses + 1;
      } else if !auditoryMatch && userAuditory {
        stats.auditoryFalseAlarms := stats.auditoryFalseAlarms + 1;
      } else if !auditoryMatch && !userAuditory {
        stats.auditoryCorrectRejections := stats.auditoryCorrectRejections + 1;
      }
      assert stats.Auditory() == old(stats.Auditory()).Record(Classify(auditoryMatch, userAuditory));

      UpdateMean(stats, responseTime);
    }

    /**
      The stimulus of trial i of a session, generated and appended to the
      history.
    */
    method NextStimulus(i: nat, ghost start: nat) returns (currentStim: Stimulus)
      requires n >= 1
      requires SessionRun(randomStream, usePredefinedSequence, predefinedStimuli, n, start, i)
               == Drawn(stimulusHistory, cursor)
      modifies this`cursor, this`stimulusHistory
      ensures stimulusHistory == old(stimulusHistory) + [currentStim]
      ensures SessionRun(randomStream, usePredefinedSequence, predefinedStimuli, n, start, i + 1)
              == Drawn(stimulusHistory, cursor)
    {
      currentStim := GenerateStimulus(i);
      stimulusHistory := stimulusHistory + [currentStim];
    }

    /**
      One pass of the trial loop of runSinglePlayerTest without its screens:
      trial i's stimulus generated and appended to the history, its match
      flags computed against the stimulus n trials back (none during the
      first n warm-up trials), and `responses[i]` scored into `stats`. After
      trial i of a session whose draws started at `start` and whose
      responses are `responses`, the history and the scores are those of
      the first i + 1 trials, the counter having been preset to `preset`.
    */
    method PlayTrial(stats: GameStats, i: nat, responses: seq<Response>, ghost start: nat, ghost preset: int)
      requires n >= 1 && i < |responses|
      requires SessionRun(randomStream, usePredefinedSequence, predefinedStimuli, n, start, i)
               == Drawn(stimulusHistory, cursor)
      requires stats.Sheet() == Scored(stimulusHistory, n, responses, preset, i)
      modifies this`cursor, this`currentTrial, this`stimulusHistory
      modifies stats`totalTrials, stats`responseTimeAvg,
               stats`visualHits, stats`visualMisses, stats`visualFalseAlarms, stats`visualCorrectRejections,
               stats`auditoryHits, stats`auditoryMisses, stats`auditoryFalseAlarms, stats`auditoryCorrectRejections
      ensures SessionRun(randomStream, usePredefinedSequence, predefinedStimuli, n, start, i + 1)
              == Drawn(stimulusHistory, cursor)
      ensures stats.Sheet() == Scored(stimulusHistory, n, responses, preset, i + 1)
      ensures currentTrial == i
    {
      ghost var before := stimulusHistory;
      currentTrial := i;
      var currentStim := NextStimulus(i, start);

      var visualMatch := false;
      var auditoryMatch := false;
      if i >= n {
        var nBackStim := stimulusHistory[i - n];
        visualMatch := currentStim.visualPosition == nBackStim.visualPosition;
        auditoryMatch := currentStim.auditoryLetter == nBackStim.auditoryLetter;
      }
      var response := responses[i];
      UpdatePlayerStats(stats, visualMatch, auditoryMatch, response.visual, response.auditory, response.latency);
      ScoredExtend(before, currentStim, n, responses, preset, i);
    }

    /**
      The trial loop of runSinglePlayerTest: the history cleared, then
      totalTrials trials played with the responses `responses`.
    */
    method PlayTrials(stats: GameStats, responses: seq<Response>)
      requires n >= 1 && |responses| >= TrialCount()
      requires stats.Sheet() == Score(totalTrials, NoTrials, NoTrials, 0.0)
      modifies this`cursor, this`currentTrial, this`stimulusHistory
      modifies stats`totalTrials, stats`responseTimeAvg,
               stats`visualHits, stats`visualMisses, stats`visualFalseAlarms, stats`visualCorrectRejections,
               stats`auditoryHits, stats`auditoryMisses, stats`auditoryFalseAlarms, stats`auditoryCorrectRejections
      ensures var run := SessionRun(randomStream, usePredefinedSequence, predefinedStimuli, n, old(cursor), TrialCount());
              stimulusHistory == run.value && cursor == run.next
      ensures TrialCount() > 0 ==> currentTrial == TrialCount() - 1
      ensures stats.Sheet() == Scored(stimulusHistory, n, responses, totalTrials, TrialCount())
    {
      stimulusHistory := [];
      ghost var start := cursor;
      var i := 0;
      while i < totalTrials
        invariant 0 <= i <= TrialCount()
        invariant SessionRun(randomStream, usePredefinedSequence, predefinedStimuli, n, start, i)
                  == Drawn(stimulusHistory, cursor)
        invariant i > 0 ==> currentTrial == i - 1
        invariant stats.Sheet() == Scored(stimulusHistory, n, responses, totalTrials, i)
        decreases totalTrials - i
      {
        PlayTrial(stats, i, responses, start, totalTrials);
        i := i + 1;
      }
    }

    /**
      The start of runSinglePlayerTest and its trial loop: a fresh GameStats
      for the player `name` at level n with the counter preset to
      totalTrials, then the trials.
    */
    method StartSession(name: string, responses: seq<Response>) returns (stats: GameStats)
      requires n >= 1 && |responses| >= TrialCount()
      modifies this`cursor, this`currentTrial, this`stimulusHistory
      ensures fresh(stats)
      ensures var run := SessionRun(randomStream, usePredefinedSequence, predefinedStimuli, n, old(cursor), TrialCount());
              stimulusHistory == run.value && cursor == run.next
      ensures TrialCount() > 0 ==> currentTrial == TrialCount() - 1
      ensures stats.playerName == name && stats.nValue == n
      ensures stats.Sheet() == Scored(stimulusHistory, n, responses, totalTrials, TrialCount())
      ensures stats.visualAccuracy == 0.0 && stats.auditoryAccuracy == 0.0 && stats.overallAccuracy == 0.0
    {
      stats := new GameStats.Start(name, n, totalTrials);
      PlayTrials(stats, responses);
    }

    /**
      The end of runSinglePlayerTest: the accuracies of the finished
      session, then the career update and the achievement checks on the
      player's record.
    */
    method FinishSession(player: Player, stats: GameStats)
      returns (updated: Player, result: SessionResult, newAchievements: seq<Achievement>)
      requires stats.visualAccuracy == 0.0 && stats.auditoryAccuracy == 0.0 && stats.overallAccuracy == 0.0
      modifies stats`visualAccuracy, stats`auditoryAccuracy, stats`overallAccuracy
      ensures result.playerName == stats.playerName && result.score == old(stats.Sheet())
      ensures result.summary == Finish(stats.nValue, result.score)
      ensures updated == player.(careerStats := SessionCareer(player.careerStats, result.summary))
      ensures newAchievements == NewlyUnlocked(CareerAfter(player.careerStats, result.summary), result.summary)
    {
      stats.CalculateAccuracies();
      var summary := stats.Summarize();
      result := SessionResult(stats.playerName, stats.Sheet(), summary);
      var career := achievementSys.UpdatePlayerStats(player.careerStats, summary);
      var checked;
      checked, newAchievements := achievementSys.CheckAchievements(career, summary);
      updated := player.(careerStats := checked);
    }

    /**
      One player's session, runSinglePlayerTest without its screens: a
      fresh GameStats with the counter preset to totalTrials, the trial
      loop, then the accuracies, the career update and the achievement
      checks.
    */
    method RunSinglePlayerTest(player: Player, responses: seq<Response>)
      returns (updated: Player, result: SessionResult, newAchievements: seq<Achievement>)
      requires n >= 1 && |responses| >= TrialCount()
      modifies this`cursor, this`currentTrial, this`stimulusHistory
      ensures var run := SessionRun(randomStream, usePredefinedSequence, predefinedStimuli, n, old(cursor), TrialCount());
              stimulusHistory == run.value && cursor == run.next
      ensures TrialCount() > 0 ==> currentTrial == TrialCount() - 1
      ensures result.playerName == player.name
      ensures result.score == Scored(stimulusHistory, n, responses, totalTrials, TrialCount())
      ensures result.summary == Finish(n, result.score)
      ensures updated == player.(careerStats := SessionCareer(player.careerStats, result.summary))
      ensures newAchievements == NewlyUnlocked(CareerAfter(player.careerStats, result.summary), result.summary)
    {
      var stats := StartSession(player.name, responses);
      updated, result, newAchievements := FinishSession(player, stats);
    }

    /**
      The loop of runMultiplayerGame before the sessions: every player's
      career record gets MULTIPLAYER unlocked.
    */
    method MarkMultiplayer()
      modifies this`players
      ensures |players| == |old(players)|
      ensures forall q :: 0 <= q < |players| ==>
                players[q] == old(players)[q].(careerStats := JoinedMultiplayer(old(players)[q].careerStats))
    {
      var i := 0;
      while i < |players|
        invariant 0 <= i <= |players| == |old(players)|
        invariant forall q :: 0 <= q < i ==>
                    players[q] == old(players)[q].(careerStats := JoinedMultiplayer(old(players)[q].careerStats))
        invariant forall q :: i <= q < |players| ==> players[q] == old(players)[q]
      {
        var career := players[i].careerStats;
        if career.achievements[Index(Multiplayer)] == 0 {
          career := career.(achievements := career.achievements[Index(Multiplayer) := 1]);
        }
        players := players[i := players[i].(careerStats := career)];
        i := i + 1;
      }
    }

    /**
      One pass of the session loop of runMultiplayerGame: player p plays a
      session on the shared sequence, and the player's record is replaced
      by the updated one. Replaying draws nothing, so the player is shown
      exactly the shared sequence.
    */
    method PlaySession(p: nat, responses: seq<Response>) returns (result: SessionResult)
      requires n >= 1 && p < |players| && |responses| >= TrialCount()
      requires usePredefinedSequence && |predefinedStimuli| == TrialCount()
      modifies this`players, this`stimulusHistory, this`cursor, this`currentTrial
      ensures cursor == old(cursor) && stimulusHistory == predefinedStimuli
      ensures TrialCount() > 0 ==> currentTrial == TrialCount() - 1
      ensures ScoredOn(result, old(players)[p].name, predefinedStimuli, n, responses, totalTrials, TrialCount())
      ensures players == old(players)[p := old(players)[p].(careerStats :=
                           SessionCareer(old(players)[p].careerStats, result.summary))]
    {
      ReplayRun(randomStream, predefinedStimuli, n, cursor, TrialCount());
      assert predefinedStimuli[..TrialCount()] == predefinedStimuli;
      var updated, unlocked;
      updated, result, unlocked := RunSinglePlayerTest(players[p], responses);
      players := players[p := updated];
    }

    /**
      The session loop of runMultiplayerGame: each player in turn plays a
      session on the shared sequence with that player's responses,
      `responses[p]` for player p.
    */
    method PlaySessions(responses: seq<seq<Response>>) returns (allStats: seq<SessionResult>)
      requires n >= 1 && |responses| == |players|
      requires forall p :: 0 <= p < |responses| ==> |responses[p]| >= TrialCount()
      requires usePredefinedSequence && |predefinedStimuli| == TrialCount()
      modifies this`players, this`stimulusHistory, this`cursor, this`currentTrial
      ensures cursor == old(cursor)
      ensures old(players) != [] ==>
                stimulusHistory == predefinedStimuli && (TrialCount() > 0 ==> currentTrial == TrialCount() - 1)
      ensures |allStats| == |players| == |old(players)|
      ensures forall p :: 0 <= p < |allStats| ==>
                ScoredOn(allStats[p], old(players)[p].name, predefinedStimuli, n, responses[p], totalTrials, TrialCount())
      ensures forall p :: 0 <= p < |players| ==>
                players[p] == old(players)[p].(careerStats := SessionCareer(old(players)[p].careerStats, allStats[p].summary))
    {
      allStats := [];
      var p := 0;
      while p < |players|
        invariant 0 <= p <= |players| == |old(players)| && |allStats| == p
        invariant cursor == old(cursor)
        invariant p > 0 ==> stimulusHistory == predefinedStimuli && (TrialCount() > 0 ==> currentTrial == TrialCount() - 1)
        invariant forall q :: p <= q < |players| ==> players[q] == old(players)[q]
        invariant forall q :: 0 <= q < p ==>
                    players[q] == old(players)[q].(careerStats := SessionCareer(old(players)[q].careerStats, allStats[q].summary))
        invariant forall q :: 0 <= q < p ==>
                    ScoredOn(allStats[q], old(players)[q].name, predefinedStimuli, n, responses[q], totalTrials, TrialCount())
      {
        var result := PlaySession(p, responses[p]);
        allStats := allStats + [result];
        p := p + 1;
      }
    }

    /**
      runMultiplayerGame without its screens: nothing happens without
      players; otherwise every player joins the multiplayer game, one
      shared sequence is generated, and each player in turn plays a session
      on it.
    */
    method RunMultiplayerGame(responses: seq<seq<Response>>) returns (allStats: seq<SessionResult>)
      requires n >= 1 && |responses| == |players|
      requires forall p :: 0 <= p < |responses| ==> |responses[p]| >= TrialCount()
      modifies this`players, this`predefinedStimuli, this`stimulusHistory, this`usePredefinedSequence,
               this`cursor, this`currentTrial
      ensures old(players) == [] ==> allStats == [] && unchanged(this)
      ensures old(players) != [] ==>
                var shared := FreshRun(n, randomStream, old(cursor), TrialCount());
                predefinedStimuli == stimulusHistory == shared.value && cursor == shared.next && usePredefinedSequence &&
                (TrialCount() > 0 ==> currentTrial == TrialCount() - 1)
      ensures |allStats| == |players| == |old(players)|
      ensures forall p :: 0 <= p < |allStats| ==>
                ScoredOn(allStats[p], old(players)[p].name, predefinedStimuli, n, responses[p], totalTrials, TrialCount())
      ensures forall p :: 0 <= p < |players| ==>
                players[p] == old(players)[p].(careerStats :=
                  SessionCareer(JoinedMultiplayer(old(players)[p].careerStats), allStats[p].summary))
    {
      if players == [] {
        return [];
      }
      MarkMultiplayer();
      GeneratePredefinedSequence();
      allStats := PlaySessions(responses);
    }
  }
}
