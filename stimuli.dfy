/**
  The stimuli of the dual n-back task and the pseudo-random process that
  produces them (NBackGame::generateStimulus in n-back.cpp).

  The C library's rand() is modelled as an infinite stream of naturals,
  `rand: nat -> nat`, read from a position `k` onwards: the k-th call of
  rand() returns rand(k). Every function here says where its draws end, so
  that the order in which draws are consumed is part of the model.
*/
module Stimuli {
  import opened Wrappers

  /** One trial: a cell of the grid and a spoken letter. */
  datatype Stimulus = Stimulus(visualPosition: int, auditoryLetter: char)

  /** The grid is GridSize by GridSize; the constructor of NBackGame fixes gridSize at 3. */
  const GridSize := 3
  /** The number of cells, gridSize * gridSize. */
  const Cells := GridSize * GridSize
  const AlphabetSize := 26
  /** Chance, in percent, that a modality copies the stimulus n trials back. */
  const MatchPercent := 30
  /** The non-match branch draws at most this many times. */
  const MaxAttempts := 10

  /** A stimulus that can be shown: a cell of the grid and a letter 'A'..'Z'. */
  predicate InRange(s: Stimulus) {
    0 <= s.visualPosition < Cells && 'A' <= s.auditoryLetter <= 'Z'
  }

  /** Every stimulus of the sequence can be shown. */
  predicate AllInRange(shown: seq<Stimulus>) {
    forall j :: 0 <= j < |shown| ==> InRange(shown[j])
  }

  datatype Modality = Visual | Auditory

  /**
    What the k-th draw of the stream yields for a modality: a cell,
    rand() % (gridSize * gridSize), or the offset of a letter from 'A',
    rand() % 26.
  */
  function Draw(rand: nat -> nat, m: Modality, k: nat): (v: int)
    ensures 0 <= v < (if m == Visual then Cells else AlphabetSize)
  {
    if m == Visual then rand(k) % Cells else rand(k) % AlphabetSize
  }

  /** The match coin drawn at position k of the stream: rand() % 100 < 30. */
  predicate Coin(rand: nat -> nat, k: nat) {
    rand(k) % 100 < MatchPercent
  }

  /** The value of a stimulus in one modality, a letter as its offset from 'A'. */
  function Code(s: Stimulus, m: Modality): int {
    if m == Visual then s.visualPosition else s.auditoryLetter as int - 'A' as int
  }

  /** The letter at an offset from 'A'. */
  function LetterAt(offset: int): (c: char)
    requires 0 <= offset < AlphabetSize
    ensures 'A' <= c <= 'Z' && c as int - 'A' as int == offset
  {
    ('A' as int + offset) as char
  }

  /** A letter drawn equals a letter exactly when its offset is that letter's offset from 'A'. */
  lemma LetterAtMatches(offset: int, c: char)
    requires 0 <= offset < AlphabetSize
    ensures LetterAt(offset) == c <==> offset == c as int - 'A' as int
  {
    if offset == c as int - 'A' as int {
      assert LetterAt(offset) as int == c as int;
    }
  }

  /** A value together with the position of the first draw not yet consumed. */
  datatype Drawn<T> = Drawn(value: T, next: nat)

  /**
    The do-while retry loop of the non-match branch, with the next draw at
    position k and `left` draws still allowed: draw, and draw again while
    the value equals the one to avoid and draws are left. `avoid` is None
    for the first n trials, where the loop runs once.
  */
  function Retry(rand: nat -> nat, m: Modality, k: nat, avoid: Option<int>, left: nat): (d: Drawn<int>)
    requires left >= 1
    ensures k < d.next <= k + left
    ensures 0 <= d.value < (if m == Visual then Cells else AlphabetSize)
    decreases left
  {
    var v := Draw(rand, m, k);
    if avoid == Some(v) && left > 1 then Retry(rand, m, k + 1, avoid, left - 1) else Drawn(v, k + 1)
  }

  /**
    The loop read off its draws: when the draws before position j all
    produced the value to avoid, and draw j does not or is the last one
    allowed, the loop yields draw j.
  */
  lemma {:induction false} RetryEndsAt(rand: nat -> nat, m: Modality, k: nat, avoid: Option<int>, left: nat, j: nat)
    requires k <= j < k + left
    requires forall i :: k <= i < j ==> avoid == Some(Draw(rand, m, i))
    requires avoid != Some(Draw(rand, m, j)) || j == k + left - 1
    ensures Retry(rand, m, k, avoid, left) == Drawn(Draw(rand, m, j), j + 1)
    decreases left
  {
    if j > k {
      assert avoid == Some(Draw(rand, m, k));
      RetryEndsAt(rand, m, k + 1, avoid, left - 1, j);
    }
  }

  /** The loop stops at the first draw that differs from the value to avoid. */
  lemma {:induction false} RetryStopsAtFirstDifferent(rand: nat -> nat, m: Modality, k: nat,
                                                      avoid: Option<int>, left: nat)
    requires left >= 1
    ensures var d := Retry(rand, m, k, avoid, left);
            forall j :: k <= j < d.next - 1 ==> avoid == Some(Draw(rand, m, j))
    decreases left
  {
    var v := Draw(rand, m, k);
    var d := Retry(rand, m, k, avoid, left);
    if avoid == Some(v) && left > 1 {
      var rest := Retry(rand, m, k + 1, avoid, left - 1);
      RetryStopsAtFirstDifferent(rand, m, k + 1, avoid, left - 1);
      assert d == rest;
      forall j | k <= j < d.next - 1
        ensures avoid == Some(Draw(rand, m, j))
      {
        if j > k {
          assert k + 1 <= j < rest.next - 1;
        }
      }
    } else {
      assert d.next == k + 1;
    }
  }

  /**
    The loop yields its last draw, and it ends on the value to avoid only
    when it has used up all its draws.
  */
  lemma {:induction false} RetryCollidesOnlyAtLimit(rand: nat -> nat, m: Modality, k: nat,
                                                     avoid: Option<int>, left: nat)
    requires left >= 1
    ensures var d := Retry(rand, m, k, avoid, left);
            d.value == Draw(rand, m, d.next - 1) && (avoid == Some(d.value) ==> d.next == k + left)
    decreases left
  {
    var v := Draw(rand, m, k);
    var d := Retry(rand, m, k, avoid, left);
    if avoid == Some(v) && left > 1 {
      RetryCollidesOnlyAtLimit(rand, m, k + 1, avoid, left - 1);
      assert d == Retry(rand, m, k + 1, avoid, left - 1);
    } else {
      assert d == Drawn(v, k + 1);
    }
  }

  /**
    One modality of one trial: copy the value n trials back when the coin
    said so, and otherwise run the retry loop against that value.
  */
  function Pick(coin: bool, back: Option<int>, rand: nat -> nat, m: Modality, k: nat): (d: Drawn<int>)
    requires coin ==> back.Some?
    ensures coin ==> d == Drawn(back.value, k)
    ensures back.None? ==> d == Drawn(Draw(rand, m, k), k + 1)
    ensures !coin ==> k < d.next <= k + MaxAttempts && 0 <= d.value < (if m == Visual then Cells else AlphabetSize)
  {
    if coin then Drawn(back.value, k) else Retry(rand, m, k, back, MaxAttempts)
  }

  /**
    Without the coin, the value drawn equals the one to avoid only when all
    MaxAttempts draws produced it.
  */
  lemma PickCollidesOnlyAfterAllDraws(back: int, rand: nat -> nat, m: Modality, k: nat)
    ensures var d := Pick(false, Some(back), rand, m, k);
            d.value == back ==>
              d.next == k + MaxAttempts && forall j :: k <= j < d.next ==> Draw(rand, m, j) == back
  {
    RetryStopsAtFirstDifferent(rand, m, k, Some(back), MaxAttempts);
    RetryCollidesOnlyAtLimit(rand, m, k, Some(back), MaxAttempts);
  }

  /** The value in one modality of the stimulus to compare with, if there is one. */
  function BackCode(back: Option<Stimulus>, m: Modality): Option<int> {
    if back.Some? then Some(Code(back.value, m)) else None
  }

  /**
    The stimulus n trials back, which trial i of a run is compared with;
    None for the first n trials, which have nothing to compare with.
  */
  function NBack(history: seq<Stimulus>, n: int, i: int): Option<Stimulus> {
    if n >= 1 && n <= i && i - n < |history| then Some(history[i - n]) else None
  }

  /**
    A freshly generated stimulus whose draws start at position k of the
    stream, `back` being the stimulus n trials back (None before trial n).
    With a stimulus to compare with, the visual coin and then the auditory
    coin are drawn; then the visual draws; then the letter draws. Without
    one, no coin is drawn. Between 2 and 2 + 2 * MaxAttempts draws are
    consumed, exactly 2 before trial n.
  */
  function FreshStimulus(rand: nat -> nat, k: nat, back: Option<Stimulus>): (d: Drawn<Stimulus>)
    ensures k + 2 <= d.next <= k + 2 + 2 * MaxAttempts
    ensures back.None? ==> d.next == k + 2
  {
    var compare := back.Some?;
    var coinVisual := compare && Coin(rand, k);
    var k1 := if compare then k + 1 else k;
    var coinAuditory := compare && Coin(rand, k1);
    var k2 := if compare then k1 + 1 else k1;
    var pos := Pick(coinVisual, BackCode(back, Visual), rand, Visual, k2);
    var letter := Pick(coinAuditory, BackCode(back, Auditory), rand, Auditory, pos.next);
    var spoken := if coinAuditory then back.value.auditoryLetter else LetterAt(letter.value);
    Drawn(Stimulus(pos.value, spoken), letter.next)
  }

  /**
    A fresh stimulus taken apart: given the two coins as drawn, it is the
    pick of a position after them and then the pick of a letter.
  */
  lemma FreshStimulusParts(rand: nat -> nat, k: nat, back: Option<Stimulus>, coinVisual: bool, coinAuditory: bool)
    requires coinVisual == (back.Some? && Coin(rand, k))
    requires coinAuditory == (back.Some? && Coin(rand, k + 1))
    ensures var pos := Pick(coinVisual, BackCode(back, Visual), rand, Visual, if back.Some? then k + 2 else k);
            var letter := Pick(coinAuditory, BackCode(back, Auditory), rand, Auditory, pos.next);
            FreshStimulus(rand, k, back)
            == Drawn(Stimulus(pos.value, if coinAuditory then back.value.auditoryLetter else LetterAt(letter.value)), letter.next)
  {
  }

  /**
    A run one trial longer: a fresh stimulus drawn where the run's draws
    ended, against the stimulus n trials before the new one.
  */
  function Extend(rand: nat -> nat, n: int, run: Drawn<seq<Stimulus>>): (d: Drawn<seq<Stimulus>>)
    ensures |d.value| == |run.value| + 1 && d.value[..|run.value|] == run.value
  {
    var s := FreshStimulus(rand, run.next, NBack(run.value, n, |run.value|));
    Drawn(run.value + [s.value], s.next)
  }

  /**
    The first m stimuli generated afresh, the first drawn from position k
    of the stream: trial i is drawn where trial i - 1 stopped, against the
    stimulus n trials back.
  */
  function FreshRun(n: int, rand: nat -> nat, k: nat, m: nat): (d: Drawn<seq<Stimulus>>)
    ensures |d.value| == m
  {
    if m == 0 then Drawn([], k) else Extend(rand, n, FreshRun(n, rand, k, m - 1))
  }

  /** Ground truth of one trial: whether each modality repeats the stimulus n back. */
  datatype Match = Match(visual: bool, auditory: bool)

  /**
    The match flags of trial i of the sequence `shown`: each modality is a
    match when trial i equals, in that modality, the stimulus n back that
    the generator compared it with.
  */
  function MatchFlags(shown: seq<Stimulus>, n: int, i: int): (f: Match)
    requires n >= 1 && 0 <= i < |shown|
    ensures f.visual <==> NBack(shown, n, i).Some? && NBack(shown, n, i).value.visualPosition == shown[i].visualPosition
    ensures f.auditory <==> NBack(shown, n, i).Some? && NBack(shown, n, i).value.auditoryLetter == shown[i].auditoryLetter
  {
    if i >= n then
      Match(shown[i].visualPosition == shown[i - n].visualPosition,
            shown[i].auditoryLetter == shown[i - n].auditoryLetter)
    else Match(false, false)
  }

  // ---------------------------------------------------------------------------
  // Properties of the generator

  /** A fresh stimulus lies on the grid and in 'A'..'Z' when the one n back does. */
  lemma FreshStimulusInRange(rand: nat -> nat, k: nat, back: Option<Stimulus>)
    requires back.Some? ==> InRange(back.value)
    ensures InRange(FreshStimulus(rand, k, back).value)
  {
  }

  /** Before trial n no coin is drawn and each modality is drawn exactly once. */
  lemma WarmUpDrawsOnce(rand: nat -> nat, k: nat)
    ensures FreshStimulus(rand, k, None)
            == Drawn(Stimulus(rand(k) % Cells, LetterAt(rand(k + 1) % AlphabetSize)), k + 2)
  {
  }

  /** A successful coin copies that modality from the stimulus n trials back. */
  lemma CoinCopiesNBack(rand: nat -> nat, k: nat, back: Option<Stimulus>)
    requires back.Some?
    ensures var s := FreshStimulus(rand, k, back).value;
            (Coin(rand, k) ==> s.visualPosition == back.value.visualPosition) &&
            (Coin(rand, k + 1) ==> s.auditoryLetter == back.value.auditoryLetter)
  {
  }

  /**
    When the visual coin fails, the position can still equal the one n back,
    but only when all ten draws of the retry loop, k+2 .. k+11, produced it.
  */
  lemma PositionCollidesOnlyAfterTenDraws(rand: nat -> nat, k: nat, back: Stimulus)
    requires !Coin(rand, k)
    requires FreshStimulus(rand, k, Some(back)).value.visualPosition == back.visualPosition
    ensures forall j :: k + 2 <= j < k + 2 + MaxAttempts ==> rand(j) % Cells == back.visualPosition
  {
    PickCollidesOnlyAfterAllDraws(back.visualPosition, rand, Visual, k + 2);
    forall j | k + 2 <= j < k + 2 + MaxAttempts
      ensures rand(j) % Cells == back.visualPosition
    {
      assert Draw(rand, Visual, j) == back.visualPosition;
    }
  }

  /**
    When the auditory coin fails, the letter can still equal the one n back,
    but only when the last ten draws of the trial, its whole retry loop,
    produced it.
  */
  lemma LetterCollidesOnlyAfterTenDraws(rand: nat -> nat, k: nat, back: Stimulus)
    requires !Coin(rand, k + 1)
    requires FreshStimulus(rand, k, Some(back)).value.auditoryLetter == back.auditoryLetter
    ensures var next := FreshStimulus(rand, k, Some(back)).next;
            next >= MaxAttempts &&
            forall j :: next - MaxAttempts <= j < next ==> LetterAt(rand(j) % AlphabetSize) == back.auditoryLetter
  {
    var pos := Pick(Coin(rand, k), Some(back.visualPosition), rand, Visual, k + 2);
    var code := Code(back, Auditory);
    var letter := Pick(false, Some(code), rand, Auditory, pos.next);
    assert FreshStimulus(rand, k, Some(back)) == Drawn(Stimulus(pos.value, LetterAt(letter.value)), letter.next);
    PickCollidesOnlyAfterAllDraws(code, rand, Auditory, pos.next);
    forall j | letter.next - MaxAttempts <= j < letter.next
      ensures LetterAt(rand(j) % AlphabetSize) == back.auditoryLetter
    {
      assert Draw(rand, Auditory, j) == code;
    }
  }

  /** Appending a stimulus in range keeps a sequence in range. */
  lemma AllInRangeAppend(shown: seq<Stimulus>, s: Stimulus)
    requires AllInRange(shown) && InRange(s)
    ensures AllInRange(shown + [s])
  {
    forall j | 0 <= j < |shown + [s]|
      ensures InRange((shown + [s])[j])
    {
      if j < |shown| {
        assert (shown + [s])[j] == shown[j];
      }
    }
  }

  /** Every stimulus of a fresh run lies in range. */
  lemma {:induction false} FreshRunInRange(n: int, rand: nat -> nat, k: nat, m: nat)
    ensures AllInRange(FreshRun(n, rand, k, m).value)
  {
    if m > 0 {
      FreshRunInRange(n, rand, k, m - 1);
      var prev := FreshRun(n, rand, k, m - 1);
      var back := NBack(prev.value, n, m - 1);
      FreshStimulusInRange(rand, prev.next, back);
      AllInRangeAppend(prev.value, FreshStimulus(rand, prev.next, back).value);
    }
  }

  /** A fresh run one trial longer is the shorter run extended. */
  lemma FreshRunStep(n: int, rand: nat -> nat, k: nat, m: nat)
    ensures FreshRun(n, rand, k, m + 1) == Extend(rand, n, FreshRun(n, rand, k, m))
  {
  }

  /** The first i stimuli of a fresh run are the fresh run of length i. */
  lemma {:induction false} FreshRunPrefix(n: int, rand: nat -> nat, k: nat, m: nat, i: nat)
    requires i <= m
    ensures FreshRun(n, rand, k, m).value[..i] == FreshRun(n, rand, k, i).value
  {
    if i < m {
      FreshRunPrefix(n, rand, k, m - 1, i);
      var whole := FreshRun(n, rand, k, m).value;
      assert whole[..m - 1] == FreshRun(n, rand, k, m - 1).value;
      assert whole[..i] == whole[..m - 1][..i];
    }
  }

  /** Trial i of a fresh run is drawn where the first i trials stopped, against their stimulus n back. */
  lemma FreshRunAt(n: int, rand: nat -> nat, k: nat, m: nat, i: nat)
    requires i < m
    ensures var run := FreshRun(n, rand, k, i);
            FreshRun(n, rand, k, m).value[i] == FreshStimulus(rand, run.next, NBack(run.value, n, i)).value
  {
    FreshRunPrefix(n, rand, k, m, i + 1);
    var whole := FreshRun(n, rand, k, m).value;
    assert whole[i] == whole[..i + 1][i];
  }

  /** The flags of trial i depend only on the trials up to i. */
  lemma MatchFlagsPrefix(shown: seq<Stimulus>, n: int, i: int, j: int)
    requires n >= 1 && 0 <= i < j <= |shown|
    ensures MatchFlags(shown[..j], n, i) == MatchFlags(shown, n, i)
  {
  }

  /**
    The stimulus a run is extended with is, in each modality whose coin
    succeeds, a match of the stimulus n trials before it.
  */
  lemma ExtendCopiesNBack(rand: nat -> nat, n: int, run: Drawn<seq<Stimulus>>)
    requires 1 <= n <= |run.value|
    ensures var shown := Extend(rand, n, run).value;
            (Coin(rand, run.next) ==> MatchFlags(shown, n, |run.value|).visual) &&
            (Coin(rand, run.next + 1) ==> MatchFlags(shown, n, |run.value|).auditory)
  {
    var i := |run.value|;
    var shown := Extend(rand, n, run).value;
    CoinCopiesNBack(rand, run.next, NBack(run.value, n, i));
    assert shown[i - n] == run.value[i - n];
  }

  /** Trial i's match flags are settled once trial i is drawn: later trials leave them alone. */
  lemma FlagsSettled(n: int, rand: nat -> nat, k: nat, m: nat, i: int)
    requires 1 <= n <= i < m
    ensures MatchFlags(FreshRun(n, rand, k, m).value, n, i) == MatchFlags(FreshRun(n, rand, k, i + 1).value, n, i)
  {
    var shown := FreshRun(n, rand, k, m).value;
    FreshRunPrefix(n, rand, k, m, i + 1);
    MatchFlagsPrefix(shown, n, i, i + 1);
  }

  /** The coins drawn for trial i of a fresh run force its match flags up when they land. */
  lemma RunCopiesNBack(n: int, rand: nat -> nat, k: nat, i: int)
    requires 1 <= n <= i
    ensures var at := FreshRun(n, rand, k, i).next;
            var shown := FreshRun(n, rand, k, i + 1).value;
            (Coin(rand, at) ==> MatchFlags(shown, n, i).visual) &&
            (Coin(rand, at + 1) ==> MatchFlags(shown, n, i).auditory)
  {
    FreshRunStep(n, rand, k, i);
    ExtendCopiesNBack(rand, n, FreshRun(n, rand, k, i));
  }

  /**
    In a fresh run, a trial i >= n whose visual (auditory) coin succeeds is a
    visual (auditory) match: the coin guarantees the ground-truth flag.
  */
  lemma CoinForcesMatch(n: int, rand: nat -> nat, k: nat, m: nat, i: int)
    requires 1 <= n <= i < m
    ensures var at := FreshRun(n, rand, k, i).next;
            var shown := FreshRun(n, rand, k, m).value;
            (Coin(rand, at) ==> MatchFlags(shown, n, i).visual) &&
            (Coin(rand, at + 1) ==> MatchFlags(shown, n, i).auditory)
  {
    RunCopiesNBack(n, rand, k, i);
    FlagsSettled(n, rand, k, m, i);
  }
}
