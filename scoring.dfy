/**
  Scoring of one session: the response classifier (the truth table of
  NBackGame::updatePlayerStats), the running mean of the latency, and the
  accuracies of GameStats::calculateAccuracies. Accuracies and latencies,
  C++ doubles in n-back.cpp, are exact reals here.
*/
module Scoring {
  import opened Stimuli

  /** Signal-detection outcome of one modality of one trial. */
  datatype Outcome = Hit | Miss | FalseAlarm | CorrectRejection

  /** The truth table: (match, responded) to outcome. */
  function Classify(isMatch: bool, responded: bool): Outcome {
    if isMatch && responded then Hit
    else if isMatch then Miss
    else if responded then FalseAlarm
    else CorrectRejection
  }

  /** The truth table read backwards: the outcome determines both inputs. */
  lemma ClassifyInverse(isMatch: bool, responded: bool)
    ensures var o := Classify(isMatch, responded);
            ((o == Hit || o == Miss) <==> isMatch) &&
            ((o == Hit || o == FalseAlarm) <==> responded) &&
            ((o == Hit || o == CorrectRejection) <==> isMatch == responded)
  {
  }

  /** The four counters of one modality. */
  datatype Tally = Tally(hits: int, misses: int, falseAlarms: int, correctRejections: int)
  {
    function Total(): int { hits + misses + falseAlarms + correctRejections }
    /** Hits and correct rejections: the trials answered correctly. */
    function Correct(): int { hits + correctRejections }
    predicate NonNegative() {
      hits >= 0 && misses >= 0 && falseAlarms >= 0 && correctRejections >= 0
    }
    /** The counters after one more trial with outcome o. */
    function Record(o: Outcome): Tally {
      match o
      case Hit => this.(hits := hits + 1)
      case Miss => this.(misses := misses + 1)
      case FalseAlarm => this.(falseAlarms := falseAlarms + 1)
      case CorrectRejection => this.(correctRejections := correctRejections + 1)
    }
  }

  const NoTrials := Tally(0, 0, 0, 0)

  /**
    One classified trial raises the total by one; it raises hits + misses
    exactly when the trial was a match, hits + false alarms exactly when the
    key was pressed, and the correct count exactly when the two agree.
    Counters that were not negative stay so.
  */
  lemma RecordClassified(t: Tally, isMatch: bool, responded: bool)
    ensures var r := t.Record(Classify(isMatch, responded));
            r.Total() == t.Total() + 1 &&
            r.hits + r.misses == t.hits + t.misses + (if isMatch then 1 else 0) &&
            r.hits + r.falseAlarms == t.hits + t.falseAlarms + (if responded then 1 else 0) &&
            r.Correct() == t.Correct() + (if isMatch == responded then 1 else 0) &&
            (t.NonNegative() ==> r.NonNegative())
  {
  }

  /** The key presses of one trial and the time until the stimulus ended, in ms. */
  datatype Response = Response(visual: bool, auditory: bool, latency: int)

  function Pressed(r: Response, m: Modality): bool {
    if m == Visual then r.visual else r.auditory
  }

  function Flag(f: Match, m: Modality): bool {
    if m == Visual then f.visual else f.auditory
  }

  /** The scoring fields of a GameStats: the trial counter, both tallies and the mean latency. */
  datatype Score = Score(totalTrials: int, visual: Tally, auditory: Tally, responseTimeAvg: real)
  {
    function TallyOf(m: Modality): Tally {
      if m == Visual then visual else auditory
    }
  }

  /**
    The running mean after a latency is added, `count` being the trial
    counter after its increment: the old mean weighted by count - 1 plus the
    new latency, over count; the latency itself when count is at most 1.
  */
  function NextMean(mean: real, count: int, latency: int): real {
    if count > 1 then (mean * (count - 1) as real + latency as real) / count as real
    else latency as real
  }

  /** One call of NBackGame::updatePlayerStats on the scoring fields. */
  function RecordTrial(s: Score, f: Match, r: Response): Score {
    var count := s.totalTrials + 1;
    Score(count,
          s.visual.Record(Classify(f.visual, r.visual)),
          s.auditory.Record(Classify(f.auditory, r.auditory)),
          NextMean(s.responseTimeAvg, count, r.latency))
  }

  /**
    One trial raises the trial counter by exactly one and, in each modality,
    exactly the counter the truth table names.
  */
  lemma RecordTrialCounts(s: Score, f: Match, r: Response, m: Modality)
    ensures var after := RecordTrial(s, f, r);
            after.totalTrials == s.totalTrials + 1 &&
            after.TallyOf(m) == s.TallyOf(m).Record(Classify(Flag(f, m), Pressed(r, m)))
  {
  }

  /**
    The scoring fields after the first m trials of a session that shows
    `shown` with responses `responses`, when the trial counter was preset to
    `preset` and everything else was zero.
  */
  function Scored(shown: seq<Stimulus>, n: int, responses: seq<Response>, preset: int, m: nat): Score
    requires n >= 1 && m <= |shown| && m <= |responses|
  {
    if m == 0 then Score(preset, NoTrials, NoTrials, 0.0)
    else RecordTrial(Scored(shown, n, responses, preset, m - 1), MatchFlags(shown, n, m - 1), responses[m - 1])
  }

  /** How many of the first m trials are matches in modality md. */
  function MatchCount(shown: seq<Stimulus>, n: int, m: nat, md: Modality): nat
    requires n >= 1 && m <= |shown|
  {
    if m == 0 then 0
    else MatchCount(shown, n, m - 1, md) + (if Flag(MatchFlags(shown, n, m - 1), md) then 1 else 0)
  }

  /** How many of the first m responses press the key of modality md. */
  function PressCount(responses: seq<Response>, m: nat, md: Modality): nat
    requires m <= |responses|
  {
    if m == 0 then 0
    else PressCount(responses, m - 1, md) + (if Pressed(responses[m - 1], md) then 1 else 0)
  }

  /** How many of the first m trials were answered correctly in modality md. */
  function AgreeCount(shown: seq<Stimulus>, n: int, responses: seq<Response>, m: nat, md: Modality): nat
    requires n >= 1 && m <= |shown| && m <= |responses|
  {
    if m == 0 then 0
    else AgreeCount(shown, n, responses, m - 1, md) +
         (if Flag(MatchFlags(shown, n, m - 1), md) == Pressed(responses[m - 1], md) then 1 else 0)
  }

  /** The score of the first m trials does not depend on the stimuli shown after them. */
  lemma {:induction false} ScoredExtend(shown: seq<Stimulus>, later: Stimulus, n: int, responses: seq<Response>,
                                        preset: int, m: nat)
    requires n >= 1 && m <= |shown| && m <= |responses|
    ensures Scored(shown + [later], n, responses, preset, m) == Scored(shown, n, responses, preset, m)
  {
    if m > 0 {
      ScoredExtend(shown, later, n, responses, preset, m - 1);
      assert MatchFlags(shown + [later], n, m - 1) == MatchFlags(shown, n, m - 1);
    }
  }

  /** The outcome of trial m - 1 is the truth-table entry of its match flag and key press. */
  lemma ScoredStep(shown: seq<Stimulus>, n: int, responses: seq<Response>, preset: int, m: nat, md: Modality)
    requires n >= 1 && 0 < m <= |shown| && m <= |responses|
    ensures Scored(shown, n, responses, preset, m).TallyOf(md)
            == Scored(shown, n, responses, preset, m - 1).TallyOf(md)
               .Record(Classify(Flag(MatchFlags(shown, n, m - 1), md), Pressed(responses[m - 1], md)))
  {
    RecordTrialCounts(Scored(shown, n, responses, preset, m - 1), MatchFlags(shown, n, m - 1), responses[m - 1], md);
  }

  /**
    Every trial is classified, the warm-up trials included: after m trials
    each modality has m outcomes.
  */
  lemma {:induction false} ScoredCounts(shown: seq<Stimulus>, n: int, responses: seq<Response>,
                                        preset: int, m: nat, md: Modality)
    requires n >= 1 && m <= |shown| && m <= |responses|
    ensures var t := Scored(shown, n, responses, preset, m).TallyOf(md);
            t.NonNegative() && t.Total() == m
  {
    if m > 0 {
      ScoredCounts(shown, n, responses, preset, m - 1, md);
      ScoredStep(shown, n, responses, preset, m, md);
      RecordClassified(Scored(shown, n, responses, preset, m - 1).TallyOf(md),
                       Flag(MatchFlags(shown, n, m - 1), md), Pressed(responses[m - 1], md));
    }
  }

  /** The hits and misses of a modality are its matches. */
  lemma {:induction false} ScoredMatches(shown: seq<Stimulus>, n: int, responses: seq<Response>,
                                         preset: int, m: nat, md: Modality)
    requires n >= 1 && m <= |shown| && m <= |responses|
    ensures var t := Scored(shown, n, responses, preset, m).TallyOf(md);
            t.hits + t.misses == MatchCount(shown, n, m, md)
  {
    if m > 0 {
      ScoredMatches(shown, n, responses, preset, m - 1, md);
      ScoredStep(shown, n, responses, preset, m, md);
      RecordClassified(Scored(shown, n, responses, preset, m - 1).TallyOf(md),
                       Flag(MatchFlags(shown, n, m - 1), md), Pressed(responses[m - 1], md));
    }
  }

  /** The hits and false alarms of a modality are its key presses. */
  lemma {:induction false} ScoredPresses(shown: seq<Stimulus>, n: int, responses: seq<Response>,
                                         preset: int, m: nat, md: Modality)
    requires n >= 1 && m <= |shown| && m <= |responses|
    ensures var t := Scored(shown, n, responses, preset, m).TallyOf(md);
            t.hits + t.falseAlarms == PressCount(responses, m, md)
  {
    if m > 0 {
      ScoredPresses(shown, n, responses, preset, m - 1, md);
      ScoredStep(shown, n, responses, preset, m, md);
      RecordClassified(Scored(shown, n, responses, preset, m - 1).TallyOf(md),
                       Flag(MatchFlags(shown, n, m - 1), md), Pressed(responses[m - 1], md));
    }
  }

  /** The correct count of a modality is the number of trials whose key press agreed with its match flag. */
  lemma {:induction false} ScoredCorrect(shown: seq<Stimulus>, n: int, responses: seq<Response>,
                                         preset: int, m: nat, md: Modality)
    requires n >= 1 && m <= |shown| && m <= |responses|
    ensures Scored(shown, n, responses, preset, m).TallyOf(md).Correct() == AgreeCount(shown, n, responses, m, md)
  {
    if m > 0 {
      ScoredCorrect(shown, n, responses, preset, m - 1, md);
      ScoredStep(shown, n, responses, preset, m, md);
      RecordClassified(Scored(shown, n, responses, preset, m - 1).TallyOf(md),
                       Flag(MatchFlags(shown, n, m - 1), md), Pressed(responses[m - 1], md));
    }
  }

  /** Warm-up trials are never matches, so they score only correct rejections and false alarms. */
  lemma {:induction false} WarmUpNeverMatches(shown: seq<Stimulus>, n: int, m: nat, md: Modality)
    requires n >= 1 && m <= |shown| && m <= n
    ensures MatchCount(shown, n, m, md) == 0
  {
    if m > 0 {
      WarmUpNeverMatches(shown, n, m - 1, md);
    }
  }

  /** The sum of the first m latencies. */
  function LatencySum(responses: seq<Response>, m: nat): int
    requires m <= |responses|
  {
    if m == 0 then 0 else LatencySum(responses, m - 1) + responses[m - 1].latency
  }

  lemma DivideThenMultiply(a: real, c: real)
    requires c != 0.0
    ensures (a / c) * c == a
  {
  }

  /** Multiplying both sides by a positive factor keeps the order, both ways. */
  lemma ScaleOrder(x: real, y: real, c: real)
    requires c > 0.0
    ensures x <= y <==> x * c <= y * c
  {
    assert x * c - y * c == (x - y) * c;
  }

  /** The counter after the m-th trial is the preset plus m. */
  lemma {:induction false} ScoredTrialCount(shown: seq<Stimulus>, n: int, responses: seq<Response>,
                                            preset: int, m: nat)
    requires n >= 1 && m <= |shown| && m <= |responses|
    ensures Scored(shown, n, responses, preset, m).totalTrials == preset + m
  {
    if m > 0 {
      ScoredTrialCount(shown, n, responses, preset, m - 1);
    }
  }

  /** The running mean weighted by the trial counter: the latency total it stands for. */
  function Weighted(s: Score): real {
    s.responseTimeAvg * s.totalTrials as real
  }

  /**
    One trial adds its latency to the weighted mean, whatever trials were
    counted before (the first one sets the mean to its latency).
  */
  lemma RecordTrialWeighted(s: Score, f: Match, r: Response)
    requires s.totalTrials >= 0
    ensures Weighted(RecordTrial(s, f, r)) == Weighted(s) + r.latency as real
  {
    var before := s.totalTrials;
    var mean := s.responseTimeAvg;
    var after := RecordTrial(s, f, r);
    var count := (before + 1) as real;
    assert after.totalTrials as real == count;
    if before >= 1 {
      var total := Weighted(s) + r.latency as real;
      assert after.responseTimeAvg == total / count;
      DivideThenMultiply(total, count);
      assert Weighted(after) == (total / count) * count;
    } else {
      assert s.totalTrials as real == 0.0 && after.totalTrials as real == 1.0;
      assert Weighted(s) == mean * 0.0 == 0.0;
      assert Weighted(after) == after.responseTimeAvg * 1.0;
    }
  }

  /** After m trials the weighted mean is the sum of the m latencies. */
  lemma {:induction false} ScoredWeighted(shown: seq<Stimulus>, n: int, responses: seq<Response>,
                                          preset: int, m: nat)
    requires n >= 1 && m <= |shown| && m <= |responses| && preset >= 0
    ensures Weighted(Scored(shown, n, responses, preset, m)) == LatencySum(responses, m) as real
  {
    if m > 0 {
      ScoredWeighted(shown, n, responses, preset, m - 1);
      ScoredTrialCount(shown, n, responses, preset, m - 1);
      RecordTrialWeighted(Scored(shown, n, responses, preset, m - 1), MatchFlags(shown, n, m - 1), responses[m - 1]);
    }
  }

  /**
    The running mean times the final trial counter is the sum of the
    latencies. With the counter preset to p >= 0 the counter ends at p + m,
    so the mean is the latency sum over p + m: with the preset of
    runSinglePlayerTest, the sum over twice the number of trials.
  */
  lemma MeanTimesCount(shown: seq<Stimulus>, n: int, responses: seq<Response>, preset: int, m: nat)
    requires n >= 1 && m <= |shown| && m <= |responses| && preset >= 0
    ensures Scored(shown, n, responses, preset, m).responseTimeAvg * (preset + m) as real
            == LatencySum(responses, m) as real
  {
    ScoredWeighted(shown, n, responses, preset, m);
    ScoredTrialCount(shown, n, responses, preset, m);
  }

  /** The first trial of a session with the counter not preset sets the mean to its latency. */
  lemma FirstMeanIsLatency(s: Score, f: Match, r: Response)
    requires s.totalTrials == 0
    ensures RecordTrial(s, f, r).responseTimeAvg == r.latency as real
  {
  }

  /** Latencies 800, 1200, 1000 from a zero counter give the means 800, 1000 and 1000. */
  lemma MeanExample(shown: seq<Stimulus>, n: int, miss: Response)
    requires n >= 1 && |shown| == 3
    ensures var rs := [miss.(latency := 800), miss.(latency := 1200), miss.(latency := 1000)];
            Scored(shown, n, rs, 0, 1).responseTimeAvg == 800.0 &&
            Scored(shown, n, rs, 0, 2).responseTimeAvg == 1000.0 &&
            Scored(shown, n, rs, 0, 3).responseTimeAvg == 1000.0
  {
    var rs := [miss.(latency := 800), miss.(latency := 1200), miss.(latency := 1000)];
    MeanTimesCount(shown, n, rs, 0, 2);
    MeanTimesCount(shown, n, rs, 0, 3);
  }

  /** The same latencies with the counter preset to 3, as runSinglePlayerTest does for 3 trials: the mean is diluted to 500. */
  lemma DilutedMeanExample(shown: seq<Stimulus>, n: int, miss: Response)
    requires n >= 1 && |shown| == 3
    ensures var rs := [miss.(latency := 800), miss.(latency := 1200), miss.(latency := 1000)];
            Scored(shown, n, rs, 3, 3).responseTimeAvg == 500.0
  {
    var rs := [miss.(latency := 800), miss.(latency := 1200), miss.(latency := 1000)];
    assert LatencySum(rs, 1) == 800;
    assert LatencySum(rs, 2) == 2000;
    assert LatencySum(rs, 3) == 3000;
    MeanTimesCount(shown, n, rs, 3, 3);
  }

  /**
    N = 2, five trials at positions 0, 4, 0, 4, 0, the visual key pressed
    from the third trial on: the three pressed trials are hits, the two
    warm-up trials are scored as correct rejections, and the visual
    accuracy is 100.
  */
  lemma ScenarioExample(latency: int)
    ensures var shown := [Stimulus(0, 'A'), Stimulus(4, 'B'), Stimulus(0, 'C'), Stimulus(4, 'D'), Stimulus(0, 'E')];
            var idle := Response(false, false, latency);
            var press := Response(true, false, latency);
            var s := Scored(shown, 2, [idle, idle, press, press, press], 5, 5);
            s.visual == Tally(3, 0, 0, 2) && s.auditory == Tally(0, 0, 0, 5) &&
            Accuracy(s.visual) == 100.0 && PooledAccuracy(s.visual, s.auditory) == 100.0
  {
    var shown := [Stimulus(0, 'A'), Stimulus(4, 'B'), Stimulus(0, 'C'), Stimulus(4, 'D'), Stimulus(0, 'E')];
    var idle := Response(false, false, latency);
    var press := Response(true, false, latency);
    var rs := [idle, idle, press, press, press];
    assert MatchFlags(shown, 2, 0) == Match(false, false);
    assert MatchFlags(shown, 2, 1) == Match(false, false);
    assert MatchFlags(shown, 2, 2) == Match(true, false);
    assert MatchFlags(shown, 2, 3) == Match(true, false);
    assert MatchFlags(shown, 2, 4) == Match(true, false);
    assert Scored(shown, 2, rs, 5, 0) == Score(5, NoTrials, NoTrials, 0.0);
    var s1 := Scored(shown, 2, rs, 5, 1);
    assert s1 == RecordTrial(Score(5, NoTrials, NoTrials, 0.0), MatchFlags(shown, 2, 0), idle);
    assert s1.visual == Tally(0, 0, 0, 1) && s1.auditory == Tally(0, 0, 0, 1);
    var s2 := Scored(shown, 2, rs, 5, 2);
    assert s2 == RecordTrial(s1, MatchFlags(shown, 2, 1), idle);
    assert s2.visual == Tally(0, 0, 0, 2) && s2.auditory == Tally(0, 0, 0, 2);
    var s3 := Scored(shown, 2, rs, 5, 3);
    assert s3 == RecordTrial(s2, MatchFlags(shown, 2, 2), press);
    assert s3.visual == Tally(1, 0, 0, 2) && s3.auditory == Tally(0, 0, 0, 3);
    var s4 := Scored(shown, 2, rs, 5, 4);
    assert s4 == RecordTrial(s3, MatchFlags(shown, 2, 3), press);
    assert s4.visual == Tally(2, 0, 0, 2) && s4.auditory == Tally(0, 0, 0, 4);
    var s5 := Scored(shown, 2, rs, 5, 5);
    assert s5 == RecordTrial(s4, MatchFlags(shown, 2, 4), press);
  }

  /** Percentage of correct trials, (hits + correct rejections) * 100 / total. */
  function Accuracy(t: Tally): real
    requires t.Total() > 0
  {
    t.Correct() as real * 100.0 / t.Total() as real
  }

  /** Both modalities pooled: all correct trials * 100 over all trials. */
  function PooledAccuracy(v: Tally, a: Tally): real
    requires v.Total() + a.Total() > 0
  {
    (v.Correct() + a.Correct()) as real * 100.0 / (v.Total() + a.Total()) as real
  }

  /** An accuracy is a percentage, and it is 100 exactly when there was no miss and no false alarm. */
  lemma AccuracyInRange(t: Tally)
    requires t.NonNegative() && t.Total() > 0
    ensures 0.0 <= Accuracy(t) <= 100.0
    ensures Accuracy(t) == 100.0 <==> t.misses == 0 && t.falseAlarms == 0
  {
    var c := t.Correct() as real;
    var n := t.Total() as real;
    var acc := Accuracy(t);
    DivideThenMultiply(c * 100.0, n);
    assert acc * n == c * 100.0;
    ScaleOrder(0.0, acc, n);
    ScaleOrder(acc, 100.0, n);
    ScaleOrder(100.0, acc, n);
  }

  /**
    The pooled accuracy weighs each modality by its number of trials: it
    lies between the two accuracies, and it is their average when both
    modalities have the same number of trials.
  */
  lemma PooledBetween(v: Tally, a: Tally)
    requires v.Total() > 0 && a.Total() > 0
    ensures var p := PooledAccuracy(v, a);
            (Accuracy(v) <= p <= Accuracy(a)) || (Accuracy(a) <= p <= Accuracy(v))
    ensures v.Total() == a.Total() ==> PooledAccuracy(v, a) == (Accuracy(v) + Accuracy(a)) / 2.0
  {
    var tv := v.Total() as real;
    var ta := a.Total() as real;
    var av := Accuracy(v);
    var aa := Accuracy(a);
    var p := PooledAccuracy(v, a);
    DivideThenMultiply(v.Correct() as real * 100.0, tv);
    DivideThenMultiply(a.Correct() as real * 100.0, ta);
    DivideThenMultiply((v.Correct() + a.Correct()) as real * 100.0, tv + ta);
    WeightedMean(p, av, aa, tv, ta);
  }

  lemma Distribute(a: real, b: real, c: real)
    ensures a * (b + c) == a * b + a * c
  {
  }

  /** A mean of x <= y with positive weights lies between them. */
  lemma MeanBetween(p: real, x: real, y: real, wx: real, wy: real)
    requires wx > 0.0 && wy > 0.0 && x <= y
    requires p * (wx + wy) == x * wx + y * wy
    ensures x <= p <= y
  {
    var w := wx + wy;
    ScaleOrder(x, y, wx);
    ScaleOrder(x, y, wy);
    Distribute(x, wx, wy);
    Distribute(y, wx, wy);
    assert x * w <= p * w;
    assert p * w <= y * w;
    ScaleOrder(x, p, w);
    ScaleOrder(p, y, w);
  }

  /** A mean of x and y with equal positive weights is their midpoint. */
  lemma MeanMidpoint(p: real, x: real, y: real, w: real)
    requires w > 0.0
    requires p * (w + w) == x * w + y * w
    ensures p == (x + y) / 2.0
  {
    Distribute(p, w, w);
    Distribute(w, x, y);
    assert (p * 2.0) * w == (x + y) * w;
    ScaleOrder(p * 2.0, x + y, w);
    ScaleOrder(x + y, p * 2.0, w);
  }

  /** A mean of x and y with positive weights lies between them; with equal weights it is the midpoint. */
  lemma WeightedMean(p: real, x: real, y: real, wx: real, wy: real)
    requires wx > 0.0 && wy > 0.0
    requires p * (wx + wy) == x * wx + y * wy
    ensures (x <= p <= y) || (y <= p <= x)
    ensures wx == wy ==> p == (x + y) / 2.0
  {
    if x <= y {
      MeanBetween(p, x, y, wx, wy);
    } else {
      assert p * (wy + wx) == y * wy + x * wx;
      MeanBetween(p, y, x, wy, wx);
    }
    if wx == wy {
      MeanMidpoint(p, x, y, wx);
    }
  }

  /** The fields of a session's GameStats that the achievement system reads. */
  datatype Summary = Summary(nValue: int, totalTrials: int, visualAccuracy: real, auditoryAccuracy: real,
                             overallAccuracy: real, responseTimeAvg: real)

  /**
    A copy of a session's GameStats, as runSinglePlayerTest returns it by
    value: the player's name, the scoring fields and the fields the
    achievement system reads.
  */
  datatype SessionResult = SessionResult(playerName: string, score: Score, summary: Summary)

  /** The result record of one player's session. */
  class GameStats {
    var playerName: string
    var nValue: int
    var totalTrials: int
    var visualHits: int
    var visualFalseAlarms: int
    var visualMisses: int
    var visualCorrectRejections: int
    var auditoryHits: int
    var auditoryFalseAlarms: int
    var auditoryMisses: int
    var auditoryCorrectRejections: int
    var visualAccuracy: real
    var auditoryAccuracy: real
    var overallAccuracy: real
    var responseTimeAvg: real

    function Visual(): Tally
      reads this`visualHits, this`visualMisses, this`visualFalseAlarms, this`visualCorrectRejections
    {
      Tally(visualHits, visualMisses, visualFalseAlarms, visualCorrectRejections)
    }

    function Auditory(): Tally
      reads this`auditoryHits, this`auditoryMisses, this`auditoryFalseAlarms, this`auditoryCorrectRejections
    {
      Tally(auditoryHits, auditoryMisses, auditoryFalseAlarms, auditoryCorrectRejections)
    }

    /** The fields that NBackGame::updatePlayerStats changes. */
    function Sheet(): Score
      reads this`totalTrials, this`responseTimeAvg
      reads this`visualHits, this`visualMisses, this`visualFalseAlarms, this`visualCorrectRejections
      reads this`auditoryHits, this`auditoryMisses, this`auditoryFalseAlarms, this`auditoryCorrectRejections
    {
      Score(totalTrials, Visual(), Auditory(), responseTimeAvg)
    }

    function Summarize(): Summary
      reads this`nValue, this`totalTrials, this`visualAccuracy, this`auditoryAccuracy, this`overallAccuracy,
            this`responseTimeAvg
    {
      Summary(nValue, totalTrials, visualAccuracy, auditoryAccuracy, overallAccuracy, responseTimeAvg)
    }

    /**
      The record runSinglePlayerTest starts a session with: the player's
      name, the level, the counter preset to the number of trials, and every
      other number zero.
    */
    constructor Start(name: string, level: int, preset: int)
      ensures playerName == name && nValue == level
      ensures Sheet() == Score(preset, NoTrials, NoTrials, 0.0)
      ensures visualAccuracy == 0.0 && auditoryAccuracy == 0.0 && overallAccuracy == 0.0
    {
      playerName := name;
      nValue := level;
      totalTrials := preset;
      visualHits, visualFalseAlarms, visualMisses, visualCorrectRejections := 0, 0, 0, 0;
      auditoryHits, auditoryFalseAlarms, auditoryMisses, auditoryCorrectRejections := 0, 0, 0, 0;
      visualAccuracy, auditoryAccuracy, overallAccuracy := 0.0, 0.0, 0.0;
      responseTimeAvg := 0.0;
    }

    /**
      Sets each accuracy whose total is positive and leaves the others as
      they were; the counters do not change.
    */
    method CalculateAccuracies()
      modifies this`visualAccuracy, this`auditoryAccuracy, this`overallAccuracy
      ensures Sheet() == old(Sheet())
      ensures Visual().Total() > 0 ==> visualAccuracy == Accuracy(Visual())
      ensures Visual().Total() <= 0 ==> visualAccuracy == old(visualAccuracy)
      ensures Auditory().Total() > 0 ==> auditoryAccuracy == Accuracy(Auditory())
      ensures Auditory().Total() <= 0 ==> auditoryAccuracy == old(auditoryAccuracy)
      ensures Visual().Total() + Auditory().Total() > 0 ==> overallAccuracy == PooledAccuracy(Visual(), Auditory())
      ensures Visual().Total() + Auditory().Total() <= 0 ==> overallAccuracy == old(overallAccuracy)
    {
      var visualTotal := visualHits + visualMisses + visualFalseAlarms + visualCorrectRejections;
      var auditoryTotal := auditoryHits + auditoryMisses + auditoryFalseAlarms + auditoryCorrectRejections;
      if visualTotal > 0 {
        visualAccuracy := (visualHits + visualCorrectRejections) as real * 100.0 / visualTotal as real;
      }
      if auditoryTotal > 0 {
        auditoryAccuracy := (auditoryHits + auditoryCorrectRejections) as real * 100.0 / auditoryTotal as real;
      }
      if visualTotal + auditoryTotal > 0 {
        overallAccuracy := (visualHits + visualCorrectRejections + auditoryHits + auditoryCorrectRejections) as real
                           * 100.0 / (visualTotal + auditoryTotal) as real;
      }
    }
  }
}
