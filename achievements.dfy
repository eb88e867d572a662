/**
  The achievement system of n-back.cpp: the career record of a player, the
  store of records by name, the eight write-once achievement rules checked
  after a session, the career update with its three-session window, and the
  achievement count.
*/
module Achievements {
  import opened Scoring

  /** The achievements, in the order of their indices 0 .. 9. */
  datatype Achievement =
    | Novice | MemoryMaster | FastThinker | PerfectScore | Challenger
    | Multiplayer | Consistent | TotalTests | DualExpert | Ninja

  /** Number of achievement slots (ACH_COUNT). */
  const AchCount := 10

  function Index(a: Achievement): nat {
    match a
    case Novice => 0
    case MemoryMaster => 1
    case FastThinker => 2
    case PerfectScore => 3
    case Challenger => 4
    case Multiplayer => 5
    case Consistent => 6
    case TotalTests => 7
    case DualExpert => 8
    case Ninja => 9
  }

  /** The achievement with index i. */
  function KindAt(i: int): Achievement
    requires 0 <= i < AchCount
  {
    [Novice, MemoryMaster, FastThinker, PerfectScore, Challenger,
     Multiplayer, Consistent, TotalTests, DualExpert, Ninja][i]
  }

  /** Index and KindAt are inverse: each achievement owns exactly one slot. */
  lemma IndexKindAt(a: Achievement, i: int)
    ensures Index(a) < AchCount && KindAt(Index(a)) == a
    ensures 0 <= i < AchCount ==> Index(KindAt(i)) == i
  {
  }

  /** The achievements[] array: one int per slot, 0 meaning locked. */
  type Flags = s: seq<int> | |s| == AchCount witness [0, 0, 0, 0, 0, 0, 0, 0, 0, 0]

  const NoFlags: Flags := [0, 0, 0, 0, 0, 0, 0, 0, 0, 0]

  /** The career record of one player. */
  datatype PlayerStats = PlayerStats(name: string, totalTests: int, totalTrials: int, maxNLevel: int,
                                     bestAccuracy: real, bestResponseTime: real, achievements: Flags,
                                     recentAccuracies: seq<real>)
  {
    predicate Locked(a: Achievement) { achievements[Index(a)] == 0 }
  }

  /** The record of a player seen for the first time: all zero, best response time 10000 ms. */
  function NewPlayerStats(name: string): (p: PlayerStats)
    ensures p.name == name && p.recentAccuracies == [] && forall a :: p.Locked(a)
  {
    PlayerStats(name, 0, 0, 0, 0.0, 10000.0, NoFlags, [])
  }

  // ---------------------------------------------------------------------------
  // The rules of checkAchievements

  /** The order in which checkAchievements tests its eight rules. */
  const CheckOrder := [Novice, MemoryMaster, FastThinker, PerfectScore, Challenger, TotalTests, DualExpert, Ninja]

  /**
    The condition of each rule of checkAchievements, on the career record
    after the session and the session's results. Multiplayer and Consistent
    have no rule there, so only the achievements of CheckOrder can qualify.
  */
  predicate Qualifies(a: Achievement, stats: PlayerStats, g: Summary)
    ensures Qualifies(a, stats, g) ==> a in CheckOrder
  {
    match a
    case Novice => stats.totalTests == 1
    case MemoryMaster => g.overallAccuracy >= 90.0
    case FastThinker => g.responseTimeAvg <= 1000.0
    case PerfectScore => g.overallAccuracy >= 99.9
    case Challenger => g.nValue >= 5
    case TotalTests => stats.totalTests >= 10
    case DualExpert => g.visualAccuracy >= 90.0 && g.auditoryAccuracy >= 90.0
    case Ninja => g.nValue >= 3 && g.overallAccuracy >= 85.0
    case Multiplayer => false
    case Consistent => false
  }

  /** A rule fires when its condition holds and its achievement is still locked. */
  predicate Fires(a: Achievement, stats: PlayerStats, g: Summary) {
    Qualifies(a, stats, g) && stats.Locked(a)
  }

  /** The list entry of one rule: the achievement when its rule fires, nothing otherwise. */
  function Entry(a: Achievement, stats: PlayerStats, g: Summary): seq<Achievement> {
    if Fires(a, stats, g) then [a] else []
  }

  /** The achievements of `order` whose rule fires, in the order given. */
  function Firing(order: seq<Achievement>, stats: PlayerStats, g: Summary): seq<Achievement> {
    if order == [] then []
    else Firing(order[..|order| - 1], stats, g) + Entry(order[|order| - 1], stats, g)
  }

  /** What checkAchievements returns: the achievements it unlocks, in rule order. */
  function NewlyUnlocked(stats: PlayerStats, g: Summary): seq<Achievement> {
    Firing(CheckOrder, stats, g)
  }

  /** A slot after checkAchievements: 1 when its rule fires, its old value otherwise. */
  function Slot(a: Achievement, stats: PlayerStats, g: Summary): int {
    if Fires(a, stats, g) then 1 else stats.achievements[Index(a)]
  }

  /** The flags after checkAchievements: the slot of each of the eight rules updated. */
  function CheckedFlags(stats: PlayerStats, g: Summary): Flags {
    stats.achievements[Index(Novice) := Slot(Novice, stats, g)]
                      [Index(MemoryMaster) := Slot(MemoryMaster, stats, g)]
                      [Index(FastThinker) := Slot(FastThinker, stats, g)]
                      [Index(PerfectScore) := Slot(PerfectScore, stats, g)]
                      [Index(Challenger) := Slot(Challenger, stats, g)]
                      [Index(TotalTests) := Slot(TotalTests, stats, g)]
                      [Index(DualExpert) := Slot(DualExpert, stats, g)]
                      [Index(Ninja) := Slot(Ninja, stats, g)]
  }

  /** The career record after checkAchievements. */
  function AfterCheck(stats: PlayerStats, g: Summary): PlayerStats {
    stats.(achievements := CheckedFlags(stats, g))
  }

  /**
    checkAchievements sets exactly the flags of the rules that fire, to 1,
    and every other slot keeps its value.
  */
  lemma CheckedSlot(stats: PlayerStats, g: Summary, a: Achievement)
    ensures CheckedFlags(stats, g)[Index(a)] == if Fires(a, stats, g) then 1 else stats.achievements[Index(a)]
  {
    match a
    case Novice =>
    case MemoryMaster =>
    case FastThinker =>
    case PerfectScore =>
    case Challenger =>
    case Multiplayer =>
    case Consistent =>
    case TotalTests =>
    case DualExpert =>
    case Ninja =>
  }

  /** Testing one more rule of `order` appends its entry. */
  lemma FiringOneMore(order: seq<Achievement>, k: nat, stats: PlayerStats, g: Summary)
    requires k < |order|
    ensures Firing(order[..k + 1], stats, g) == Firing(order[..k], stats, g) + Entry(order[k], stats, g)
  {
    assert order[..k + 1][..k] == order[..k];
  }

  /** The list checkAchievements builds, one rule after the other, is the filtered rule order. */
  lemma NewlyUnlockedUnrolled(stats: PlayerStats, g: Summary)
    ensures NewlyUnlocked(stats, g)
            == Entry(Novice, stats, g) + Entry(MemoryMaster, stats, g) + Entry(FastThinker, stats, g)
               + Entry(PerfectScore, stats, g) + Entry(Challenger, stats, g) + Entry(TotalTests, stats, g)
               + Entry(DualExpert, stats, g) + Entry(Ninja, stats, g)
  {
    var o := CheckOrder;
    assert Firing(o[..0], stats, g) == [];
    FiringOneMore(o, 0, stats, g);
    assert Firing(o[..1], stats, g) == Entry(Novice, stats, g);
    FiringOneMore(o, 1, stats, g);
    FiringOneMore(o, 2, stats, g);
    FiringOneMore(o, 3, stats, g);
    FiringOneMore(o, 4, stats, g);
    FiringOneMore(o, 5, stats, g);
    FiringOneMore(o, 6, stats, g);
    FiringOneMore(o, 7, stats, g);
    assert o[..8] == o;
  }

  /** An achievement is in the list exactly when it is one of `order` and its rule fires. */
  lemma {:induction false} FiringMembers(order: seq<Achievement>, stats: PlayerStats, g: Summary, a: Achievement)
    ensures a in Firing(order, stats, g) <==> a in order && Fires(a, stats, g)
    decreases |order|
  {
    if order != [] {
      FiringMembers(order[..|order| - 1], stats, g, a);
      assert order == order[..|order| - 1] + [order[|order| - 1]];
    }
  }

  /** Indices strictly increase along a sequence: it is in slot order and has no duplicates. */
  predicate InSlotOrder(s: seq<Achievement>) {
    forall i, j :: 0 <= i < j < |s| ==> Index(s[i]) < Index(s[j])
  }

  /** Filtering keeps the slot order of `order`. */
  lemma {:induction false} FiringInOrder(order: seq<Achievement>, stats: PlayerStats, g: Summary)
    requires InSlotOrder(order)
    ensures InSlotOrder(Firing(order, stats, g))
    decreases |order|
  {
    if order != [] {
      var init := order[..|order| - 1];
      var last := order[|order| - 1];
      FiringInOrder(init, stats, g);
      var f := Firing(init, stats, g);
      if Fires(last, stats, g) {
        forall x | x in f
          ensures Index(x) < Index(last)
        {
          FiringMembers(init, stats, g, x);
          var k :| 0 <= k < |init| && init[k] == x;
          assert order[k] == x;
        }
        var r := f + [last];
        forall i, j | 0 <= i < j < |r|
          ensures Index(r[i]) < Index(r[j])
        {
          if j == |r| - 1 {
            assert r[i] in f;
          }
        }
      }
    }
  }

  /**
    checkAchievements reports exactly the achievements whose rule fires,
    each once, in the order NOVICE, MEMORY_MASTER, FAST_THINKER,
    PERFECT_SCORE, CHALLENGER, TOTAL_TESTS, DUAL_EXPERT, NINJA.
  */
  lemma NewlyUnlockedExact(stats: PlayerStats, g: Summary)
    ensures InSlotOrder(NewlyUnlocked(stats, g))
    ensures forall a :: a in NewlyUnlocked(stats, g) <==> Fires(a, stats, g)
  {
    FiringInOrder(CheckOrder, stats, g);
    forall a
      ensures a in NewlyUnlocked(stats, g) <==> Fires(a, stats, g)
    {
      FiringMembers(CheckOrder, stats, g, a);
    }
  }

  /** The list checkAchievements returns names exactly the flags it turned from 0 to 1. */
  lemma UnlockedIsFlipped(stats: PlayerStats, g: Summary, a: Achievement)
    ensures a in NewlyUnlocked(stats, g) <==> stats.Locked(a) && AfterCheck(stats, g).achievements[Index(a)] == 1
  {
    NewlyUnlockedExact(stats, g);
    CheckedSlot(stats, g, a);
  }

  /**
    checkAchievements only sets locked flags to 1: a flag that was set keeps
    its value, MULTIPLAYER and CONSISTENT are never touched, and everything
    but the flags stays as it was.
  */
  lemma CheckWritesOnce(stats: PlayerStats, g: Summary)
    ensures var after := AfterCheck(stats, g);
            after.(achievements := stats.achievements) == stats &&
            (forall a :: after.achievements[Index(a)] == stats.achievements[Index(a)] ||
                         (stats.Locked(a) && after.achievements[Index(a)] == 1)) &&
            after.achievements[Index(Multiplayer)] == stats.achievements[Index(Multiplayer)] &&
            after.achievements[Index(Consistent)] == stats.achievements[Index(Consistent)]
  {
    forall a
      ensures AfterCheck(stats, g).achievements[Index(a)]
              == if Fires(a, stats, g) then 1 else stats.achievements[Index(a)]
    {
      CheckedSlot(stats, g, a);
    }
  }

  /** A second check with the same inputs unlocks nothing and changes nothing. */
  lemma CheckIdempotent(stats: PlayerStats, g: Summary)
    ensures NewlyUnlocked(AfterCheck(stats, g), g) == []
    ensures AfterCheck(AfterCheck(stats, g), g) == AfterCheck(stats, g)
  {
    var after := AfterCheck(stats, g);
    forall a
      ensures !Fires(a, after, g)
    {
      CheckedSlot(stats, g, a);
    }
    if NewlyUnlocked(after, g) != [] {
      FiringMembers(CheckOrder, after, g, NewlyUnlocked(after, g)[0]);
    }
  }

  // ---------------------------------------------------------------------------
  // The career update of AchievementSystem::updatePlayerStats

  /** The recent-accuracy window after appending: the oldest value is dropped when it holds more than 3. */
  function Window(recent: seq<real>, accuracy: real): seq<real> {
    var grown := recent + [accuracy];
    if |grown| > 3 then grown[1..] else grown
  }

  /** Every value of the window is at least `bound`. */
  predicate AllAtLeast(window: seq<real>, bound: real) {
    forall j :: 0 <= j < |window| ==> window[j] >= bound
  }

  /** The condition of the CONSISTENT rule: three sessions in the window, all at 80% or more. */
  predicate ConsistentWindow(window: seq<real>) {
    |window| == 3 && AllAtLeast(window, 80.0)
  }

  /** The career record after AchievementSystem::updatePlayerStats. */
  function CareerAfter(stats: PlayerStats, g: Summary): PlayerStats {
    var window := Window(stats.recentAccuracies, g.overallAccuracy);
    var flags := if ConsistentWindow(window) && stats.Locked(Consistent)
                 then stats.achievements[Index(Consistent) := 1] else stats.achievements;
    stats.(totalTests := stats.totalTests + 1,
           totalTrials := stats.totalTrials + g.totalTrials,
           maxNLevel := if g.nValue > stats.maxNLevel then g.nValue else stats.maxNLevel,
           bestAccuracy := if g.overallAccuracy > stats.bestAccuracy then g.overallAccuracy else stats.bestAccuracy,
           bestResponseTime := if g.responseTimeAvg < stats.bestResponseTime then g.responseTimeAvg else stats.bestResponseTime,
           achievements := flags,
           recentAccuracies := window)
  }

  /**
    The career counters: one more session, the session's trial counter
    added, maximum N and best accuracy are maxima, the best response time a
    minimum, and the name does not change.
  */
  lemma CareerCounters(stats: PlayerStats, g: Summary)
    ensures var c := CareerAfter(stats, g);
            c.name == stats.name &&
            c.totalTests == stats.totalTests + 1 &&
            c.totalTrials == stats.totalTrials + g.totalTrials &&
            c.maxNLevel >= stats.maxNLevel && c.maxNLevel >= g.nValue &&
            (c.maxNLevel == stats.maxNLevel || c.maxNLevel == g.nValue) &&
            c.bestAccuracy >= stats.bestAccuracy && c.bestAccuracy >= g.overallAccuracy &&
            (c.bestAccuracy == stats.bestAccuracy || c.bestAccuracy == g.overallAccuracy) &&
            c.bestResponseTime <= stats.bestResponseTime && c.bestResponseTime <= g.responseTimeAvg &&
            (c.bestResponseTime == stats.bestResponseTime || c.bestResponseTime == g.responseTimeAvg)
  {
  }

  /**
    The window ends with the new accuracy; from a window of at most three
    values it holds at most three and they are the last three of the
    history with the new value appended.
  */
  lemma WindowKeepsLastThree(recent: seq<real>, accuracy: real)
    requires |recent| <= 3
    ensures var w := Window(recent, accuracy);
            var grown := recent + [accuracy];
            |w| <= 3 && w[|w| - 1] == accuracy &&
            |w| == (if |grown| < 3 then |grown| else 3) && w == grown[|grown| - |w|..]
  {
  }

  /**
    CONSISTENT is set by the career update exactly when it was locked and
    the new window holds three values of at least 80; a set flag is never
    cleared, and no other flag changes.
  */
  lemma CareerConsistent(stats: PlayerStats, g: Summary)
    ensures var c := CareerAfter(stats, g);
            ((c.achievements[Index(Consistent)] != stats.achievements[Index(Consistent)])
               <==> stats.Locked(Consistent) && ConsistentWindow(c.recentAccuracies)) &&
            (!stats.Locked(Consistent) ==> !c.Locked(Consistent)) &&
            (forall a :: a != Consistent ==> c.achievements[Index(a)] == stats.achievements[Index(a)])
  {
    forall a | a != Consistent
      ensures CareerAfter(stats, g).achievements[Index(a)] == stats.achievements[Index(a)]
    {
      IndexKindAt(a, 0);
      assert Index(a) != Index(Consistent) by {
        IndexKindAt(Consistent, 0);
      }
    }
  }

  /** The flags after the multiplayer loop of runMultiplayerGame: MULTIPLAYER set if it was locked. */
  function JoinedMultiplayer(stats: PlayerStats): PlayerStats {
    if stats.Locked(Multiplayer) then stats.(achievements := stats.achievements[Index(Multiplayer) := 1]) else stats
  }

  /** Joining a multiplayer game unlocks MULTIPLAYER and changes nothing else. */
  lemma JoinedMultiplayerOnlyThatFlag(stats: PlayerStats)
    ensures var j := JoinedMultiplayer(stats);
            !j.Locked(Multiplayer) &&
            j.(achievements := stats.achievements) == stats &&
            forall a :: a != Multiplayer ==> j.achievements[Index(a)] == stats.achievements[Index(a)]
  {
    forall a | a != Multiplayer
      ensures JoinedMultiplayer(stats).achievements[Index(a)] == stats.achievements[Index(a)]
    {
      IndexKindAt(a, 0);
      assert Index(a) != Index(Multiplayer) by {
        IndexKindAt(Multiplayer, 0);
      }
    }
  }

  // ---------------------------------------------------------------------------
  // The achievement count

  /** The number of nonzero flags among slots 0 .. m - 1. */
  function CountUnlocked(flags: Flags, m: nat): nat
    requires m <= AchCount
  {
    if m == 0 then 0 else CountUnlocked(flags, m - 1) + (if flags[m - 1] != 0 then 1 else 0)
  }

  /** The slots getAchievementCount looks at: 0 .. ACH_COUNT - 2, so NINJA is left out. */
  const CountedSlots := AchCount - 1

  /** Two flag arrays that agree on slots below m have the same count below m. */
  lemma {:induction false} CountAgrees(f1: Flags, f2: Flags, m: nat)
    requires m <= AchCount
    requires forall i :: 0 <= i < m ==> (f1[i] != 0) == (f2[i] != 0)
    ensures CountUnlocked(f1, m) == CountUnlocked(f2, m)
  {
    if m > 0 {
      CountAgrees(f1, f2, m - 1);
    }
  }

  /**
    The count never includes NINJA: it is at most 9, whatever NINJA's flag
    holds, and it is 0 for a new player.
  */
  lemma NinjaNeverCounted(stats: PlayerStats, v: int)
    ensures CountUnlocked(stats.achievements, CountedSlots) <= CountedSlots
    ensures CountUnlocked(stats.achievements[Index(Ninja) := v], CountedSlots)
            == CountUnlocked(stats.achievements, CountedSlots)
    ensures CountUnlocked(NewPlayerStats(stats.name).achievements, CountedSlots) == 0
  {
    CountBounded(stats.achievements, CountedSlots);
    CountAgrees(stats.achievements[Index(Ninja) := v], stats.achievements, CountedSlots);
    CountAgrees(NewPlayerStats(stats.name).achievements, NoFlags, CountedSlots);
    ZeroCount(CountedSlots);
  }

  lemma {:induction false} CountBounded(flags: Flags, m: nat)
    requires m <= AchCount
    ensures CountUnlocked(flags, m) <= m
  {
    if m > 0 {
      CountBounded(flags, m - 1);
    }
  }

  lemma {:induction false} ZeroCount(m: nat)
    requires m <= AchCount
    ensures CountUnlocked(NoFlags, m) == 0
  {
    if m > 0 {
      ZeroCount(m - 1);
    }
  }

  /** Setting flags never lowers the count: it is monotone in the set of unlocked slots. */
  lemma {:induction false} CountMonotone(f1: Flags, f2: Flags, m: nat)
    requires m <= AchCount
    requires forall i :: 0 <= i < m && f1[i] != 0 ==> f2[i] != 0
    ensures CountUnlocked(f1, m) <= CountUnlocked(f2, m)
  {
    if m > 0 {
      CountMonotone(f1, f2, m - 1);
    }
  }

  /** The checks and the career update never lower a player's achievement count. */
  lemma CountNeverDrops(stats: PlayerStats, g: Summary)
    ensures CountUnlocked(stats.achievements, CountedSlots) <= CountUnlocked(AfterCheck(stats, g).achievements, CountedSlots)
    ensures CountUnlocked(stats.achievements, CountedSlots) <= CountUnlocked(CareerAfter(stats, g).achievements, CountedSlots)
  {
    CheckWritesOnce(stats, g);
    CountMonotone(stats.achievements, AfterCheck(stats, g).achievements, CountedSlots);
    var c := CareerAfter(stats, g);
    forall i | 0 <= i < CountedSlots && stats.achievements[i] != 0
      ensures c.achievements[i] != 0
    {
    }
    CountMonotone(stats.achievements, c.achievements, CountedSlots);
  }

  // ---------------------------------------------------------------------------
  // The store of career records

  /** The store after getPlayerStats(name): a new record is inserted when the name is absent. */
  function StoreAfterGet(store: map<string, PlayerStats>, name: string): map<string, PlayerStats> {
    if name in store then store else store[name := NewPlayerStats(name)]
  }

  /**
    Looking a name up leaves it present, keeps an existing record, gives an
    absent name the default record, leaves every other name alone, and a
    second lookup changes nothing.
  */
  lemma StoreAfterGetProperties(store: map<string, PlayerStats>, name: string)
    ensures var s := StoreAfterGet(store, name);
            name in s &&
            (name in store ==> s[name] == store[name]) &&
            (name !in store ==> s[name] == NewPlayerStats(name)) &&
            s.Keys == store.Keys + {name} &&
            (forall other :: other in store && other != name ==> other in s && s[other] == store[other]) &&
            StoreAfterGet(s, name) == s
  {
  }

  class AchievementSystem {
    /** Career records by player name. */
    var allPlayers: map<string, PlayerStats>

    /** The records read at start-up; reading them from disk is not part of this model. */
    constructor(loaded: map<string, PlayerStats>)
      ensures allPlayers == loaded
    {
      allPlayers := loaded;
    }

    /** The record of `name`, inserted with default values when absent. */
    method GetPlayerStats(name: string) returns (stats: PlayerStats)
      modifies this
      ensures allPlayers == StoreAfterGet(old(allPlayers), name)
      ensures stats == allPlayers[name]
    {
      if name !in allPlayers {
        var newStats := NewPlayerStats(name);
        allPlayers := allPlayers[name := newStats];
      }
      stats := allPlayers[name];
    }

    /**
      The eight rules, tested in order on the record `stats`; returns the
      record with the new flags set and the achievements unlocked.
    */
    method CheckAchievements(stats: PlayerStats, gameStats: Summary) returns (updated: PlayerStats, newAchievements: seq<Achievement>)
      ensures updated == AfterCheck(stats, gameStats)
      ensures newAchievements == NewlyUnlocked(stats, gameStats)
    {
      var flags := stats.achievements;
      newAchievements := [];
      flags, newAchievements := Unlock(Novice, stats, gameStats, flags, newAchievements);
      assert newAchievements == Entry(Novice, stats, gameStats);
      flags, newAchievements := Unlock(MemoryMaster, stats, gameStats, flags, newAchievements);
      flags, newAchievements := Unlock(FastThinker, stats, gameStats, flags, newAchievements);
      flags, newAchievements := Unlock(PerfectScore, stats, gameStats, flags, newAchievements);
      flags, newAchievements := Unlock(Challenger, stats, gameStats, flags, newAchievements);
      flags, newAchievements := Unlock(TotalTests, stats, gameStats, flags, newAchievements);
      flags, newAchievements := Unlock(DualExpert, stats, gameStats, flags, newAchievements);
      flags, newAchievements := Unlock(Ninja, stats, gameStats, flags, newAchievements);
      updated := stats.(achievements := flags);
      NewlyUnlockedUnrolled(stats, gameStats);
    }

    /**
      One rule of checkAchievements: when the condition of `a` holds and its
      slot is still 0, the slot becomes 1 and `a` is reported.
    */
    method Unlock(a: Achievement, stats: PlayerStats, g: Summary,
                  flags: Flags, unlocked: seq<Achievement>)
      returns (flags': Flags, unlocked': seq<Achievement>)
      requires flags[Index(a)] == stats.achievements[Index(a)]
      ensures flags' == flags[Index(a) := Slot(a, stats, g)]
      ensures unlocked' == unlocked + Entry(a, stats, g)
    {
      flags', unlocked' := flags, unlocked;
      if Qualifies(a, stats, g) && flags[Index(a)] == 0 {
        flags' := flags[Index(a) := 1];
        unlocked' := unlocked + [a];
      }
    }

    /** The career update of `stats` with a finished session. */
    method UpdatePlayerStats(stats: PlayerStats, gameStats: Summary) returns (updated: PlayerStats)
      ensures updated == CareerAfter(stats, gameStats)
    {
      var maxNLevel := if gameStats.nValue > stats.maxNLevel then gameStats.nValue else stats.maxNLevel;
      var bestAccuracy := if gameStats.overallAccuracy > stats.bestAccuracy then gameStats.overallAccuracy else stats.bestAccuracy;
      var bestResponseTime := if gameStats.responseTimeAvg < stats.bestResponseTime then gameStats.responseTimeAvg
                              else stats.bestResponseTime;
      var recent := stats.recentAccuracies + [gameStats.overallAccuracy];
      if |recent| > 3 {
        recent := recent[1..];
      }
      assert recent == Window(stats.recentAccuracies, gameStats.overallAccuracy);
      var flags := stats.achievements;
      if |recent| == 3 {
        var allOver80 := true;
        var j := 0;
        while j < |recent|
          invariant 0 <= j <= |recent|
          invariant allOver80
          invariant forall t :: 0 <= t < j ==> recent[t] >= 80.0
        {
          if recent[j] < 80.0 {
            allOver80 := false;
            break;
          }
          j := j + 1;
        }
        assert allOver80 <==> AllAtLeast(recent, 80.0);
        if allOver80 && flags[Index(Consistent)] == 0 {
          flags := flags[Index(Consistent) := 1];
        }
      }
      updated := stats.(totalTests := stats.totalTests + 1,
                        totalTrials := stats.totalTrials + gameStats.totalTrials,
                        maxNLevel := maxNLevel,
                        bestAccuracy := bestAccuracy,
                        bestResponseTime := bestResponseTime,
                        achievements := flags,
                        recentAccuracies := recent);
      ghost var spec := CareerAfter(stats, gameStats);
      assert spec.recentAccuracies == recent;
      assert spec.achievements == flags;
    }

    /** How many of slots 0 .. ACH_COUNT - 2 are nonzero. */
    method GetAchievementCount(stats: PlayerStats) returns (count: int)
      ensures count == CountUnlocked(stats.achievements, CountedSlots)
    {
      count := 0;
      var i := 0;
      while i < AchCount - 1
        invariant 0 <= i <= CountedSlots
        invariant count == CountUnlocked(stats.achievements, i)
      {
        if stats.achievements[i] != 0 {
          count := count + 1;
        }
        i := i + 1;
      }
    }
  }
}
