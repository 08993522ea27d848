/**
 * The statistics and achievement ledger of the hangman game: eight
 * counters, the points formula, the fixed catalog of seven achievements and
 * the list of achievement ids kept in storage.
 */
module Achievements {

  /** The eight counters of the ledger, as one value. */
  datatype Stats = Stats(
    totalWins: nat,
    totalLosses: nat,
    totalPoints: int,
    currentStreak: nat,
    maxStreak: nat,
    hintsUsed: nat,
    gamesPlayed: nat,
    perfectGames: nat)

  /** The ledger of a first start, and the one `reset` installs. */
  const ZeroStats := Stats(0, 0, 0, 0, 0, 0, 0, 0)

  /** What every recorded history keeps: each game played is a win or a loss,
      the current streak never beats the best one, and a perfect game is a win. */
  predicate Consistent(s: Stats) {
    && s.gamesPlayed == s.totalWins + s.totalLosses
    && s.currentStreak <= s.maxStreak
    && s.perfectGames <= s.totalWins
  }

  lemma ZeroConsistent()
    ensures Consistent(ZeroStats)
  {
  }

  const BasePoints := 100
  const BonusPerSpareGuess := 10
  const BonusGuesses := 6

  /** Points for a win after `wrongGuesses` misses: 100, plus 10 for every
      miss short of six, never less than 100. */
  function WinAward(wrongGuesses: int): (points: int)
    ensures points >= BasePoints
    ensures wrongGuesses >= BonusGuesses ==> points == BasePoints
    ensures wrongGuesses <= BonusGuesses ==> points + 10 * wrongGuesses == 160
    ensures 0 <= wrongGuesses ==> points <= 160
  {
    BasePoints + Max(0, (BonusGuesses - wrongGuesses) * BonusPerSpareGuess)
  }

  function Max(a: int, b: int): int {
    if a < b then b else a
  }

  /** A flawless win earns 160 points and one with three misses 130. */
  lemma WinAwardExamples()
    ensures WinAward(0) == 160 && WinAward(3) == 130 && WinAward(5) == 110
    ensures WinAward(6) == 100 && WinAward(9) == 100
  {
  }

  /** Fewer misses never earn fewer points. */
  lemma WinAwardMonotone(fewer: int, more: int)
    requires fewer <= more
    ensures WinAward(fewer) >= WinAward(more)
    ensures more <= BonusGuesses ==> WinAward(fewer) - WinAward(more) == 10 * (more - fewer)
  {
  }

  /** The ledger after a win with `wrongGuesses` misses. */
  function AfterWin(s: Stats, wrongGuesses: int): (t: Stats)
    ensures Consistent(s) ==> Consistent(t)
    ensures t.totalWins == s.totalWins + 1 && t.gamesPlayed == s.gamesPlayed + 1
    ensures t.currentStreak == s.currentStreak + 1
    ensures t.maxStreak >= s.maxStreak && t.maxStreak >= t.currentStreak
    ensures t.maxStreak == s.maxStreak || t.maxStreak == t.currentStreak
    ensures t.totalPoints == s.totalPoints + WinAward(wrongGuesses)
    ensures t.perfectGames == s.perfectGames + (if wrongGuesses == 0 then 1 else 0)
    ensures t.totalLosses == s.totalLosses && t.hintsUsed == s.hintsUsed
  {
    var streak := s.currentStreak + 1;
    s.(totalWins := s.totalWins + 1,
       gamesPlayed := s.gamesPlayed + 1,
       currentStreak := streak,
       maxStreak := if streak > s.maxStreak then streak else s.maxStreak,
       totalPoints := s.totalPoints + WinAward(wrongGuesses),
       perfectGames := if wrongGuesses == 0 then s.perfectGames + 1 else s.perfectGames)
  }

  /** The ledger after a loss. */
  function AfterLoss(s: Stats): (t: Stats)
    ensures Consistent(s) ==> Consistent(t)
    ensures t.totalLosses == s.totalLosses + 1 && t.gamesPlayed == s.gamesPlayed + 1
    ensures t.currentStreak == 0
    ensures t.totalWins == s.totalWins && t.totalPoints == s.totalPoints
    ensures t.maxStreak == s.maxStreak && t.hintsUsed == s.hintsUsed
    ensures t.perfectGames == s.perfectGames
  {
    s.(totalLosses := s.totalLosses + 1, gamesPlayed := s.gamesPlayed + 1, currentStreak := 0)
  }

  /** Achievement identities, in catalog order. */
  datatype Achievement =
    | FirstWin | FiveWins | TenWins | PerfectGame
    | StreakMaster | HintMaster | PointsCollector

  /** The catalog, in the order it is declared and evaluated: seven entries,
      one for every achievement. */
  function Catalog(): (r: seq<Achievement>)
    ensures |r| == 7
    ensures forall a: Achievement :: a in r
  {
    var r := [FirstWin, FiveWins, TenWins, PerfectGame, StreakMaster, HintMaster, PointsCollector];
    ListsEveryAchievement(r);
    r
  }

  /** The catalog's seven entries leave no achievement out. */
  lemma ListsEveryAchievement(r: seq<Achievement>)
    requires r == [FirstWin, FiveWins, TenWins, PerfectGame, StreakMaster, HintMaster, PointsCollector]
    ensures forall a: Achievement :: a in r
  {
    forall a: Achievement ensures a in r {
      match a
      case FirstWin => assert r[0] == a;
      case FiveWins => assert r[1] == a;
      case TenWins => assert r[2] == a;
      case PerfectGame => assert r[3] == a;
      case StreakMaster => assert r[4] == a;
      case HintMaster => assert r[5] == a;
      case PointsCollector => assert r[6] == a;
    }
  }

  /** Position of an achievement in the catalog. */
  function Rank(a: Achievement): (k: nat)
    ensures k < |Catalog()| && Catalog()[k] == a
  {
    match a
    case FirstWin => 0
    case FiveWins => 1
    case TenWins => 2
    case PerfectGame => 3
    case StreakMaster => 4
    case HintMaster => 5
    case PointsCollector => 6
  }

  /** The identifier the achievement is stored under. */
  function Id(a: Achievement): string {
    match a
    case FirstWin => "first_win"
    case FiveWins => "five_wins"
    case TenWins => "ten_wins"
    case PerfectGame => "perfect_game"
    case StreakMaster => "streak_master"
    case HintMaster => "hint_master"
    case PointsCollector => "points_collector"
  }

  /** Distinct achievements are stored under distinct identifiers. */
  lemma IdInjective(a: Achievement, b: Achievement)
    ensures Id(a) == Id(b) ==> a == b
  {
    if a != b {
      assert Id(a)[..2] != Id(b)[..2] || Id(a)[|Id(a)| - 2..] != Id(b)[|Id(b)| - 2..]
          || |Id(a)| != |Id(b)|;
    }
  }

  /** The threshold each achievement sets on the ledger. */
  predicate Holds(a: Achievement, s: Stats) {
    match a
    case FirstWin => s.totalWins >= 1
    case FiveWins => s.totalWins >= 5
    case TenWins => s.totalWins >= 10
    case PerfectGame => s.perfectGames >= 1
    case StreakMaster => s.maxStreak >= 5
    case HintMaster => s.hintsUsed >= 10
    case PointsCollector => s.totalPoints >= 1000
  }

  /** Thresholds only look upwards: a ledger that has at least the wins,
      perfect games, best streak, hints and points of another meets every
      achievement the other meets. */
  lemma HoldsMonotone(a: Achievement, s: Stats, t: Stats)
    requires t.totalWins >= s.totalWins && t.perfectGames >= s.perfectGames
    requires t.maxStreak >= s.maxStreak && t.hintsUsed >= s.hintsUsed
    requires t.totalPoints >= s.totalPoints
    ensures Holds(a, s) ==> Holds(a, t)
  {
  }

  /** A win never takes an achievement's threshold away: only spending
      points on hints can. */
  lemma WinKeepsThresholds(s: Stats, wrongGuesses: int)
    ensures forall a :: Holds(a, s) ==> Holds(a, AfterWin(s, wrongGuesses))
  {
    forall a | Holds(a, s) ensures Holds(a, AfterWin(s, wrongGuesses)) {
      HoldsMonotone(a, s, AfterWin(s, wrongGuesses));
    }
  }

  /** Strictly in catalog order (hence without repetition). */
  predicate Ascending(xs: seq<Achievement>) {
    forall i, j :: 0 <= i < j < |xs| ==> Rank(xs[i]) < Rank(xs[j])
  }

  lemma CatalogAscending()
    ensures Ascending(Catalog())
  {
  }

  /** The members of `cat` whose threshold holds, in the order of `cat`. */
  function SatisfiedIn(cat: seq<Achievement>, s: Stats): (r: seq<Achievement>)
    ensures forall a :: a in r <==> a in cat && Holds(a, s)
    ensures Ascending(cat) ==> Ascending(r)
    ensures |r| <= |cat|
  {
    if cat == [] then []
    else
      var rest := SatisfiedIn(cat[1..], s);
      if Holds(cat[0], s) then
        PrependAscending(cat, rest);
        [cat[0]] + rest
      else rest
  }

  /** Putting the head of an ascending list in front of an ascending list
      drawn from its tail keeps it ascending. */
  lemma PrependAscending(xs: seq<Achievement>, ys: seq<Achievement>)
    requires xs != []
    requires forall a :: a in ys ==> a in xs[1..]
    ensures Ascending(xs) && Ascending(ys) ==> Ascending([xs[0]] + ys)
  {
    forall k | 0 <= k < |ys| && Ascending(xs) ensures Rank(xs[0]) < Rank(ys[k]) {
      assert ys[k] in xs[1..];
      var j :| 0 <= j < |xs[1..]| && xs[1..][j] == ys[k];
      assert xs[j + 1] == ys[k];
    }
  }

  /** The achievements whose threshold the ledger meets, in catalog order
      (`getUnlockedAchievements`). */
  function Unlocked(s: Stats): (r: seq<Achievement>)
    ensures forall a :: a in r <==> Holds(a, s)
    ensures Ascending(r)
  {
    CatalogAscending();
    SatisfiedIn(Catalog(), s)
  }

  /** The members of `xs` whose identifier is not in `saved`, in order. */
  function NotSaved(xs: seq<Achievement>, saved: seq<string>): (r: seq<Achievement>)
    ensures forall a :: a in r <==> a in xs && Id(a) !in saved
    ensures Ascending(xs) ==> Ascending(r)
    ensures |r| <= |xs|
  {
    if xs == [] then []
    else
      var rest := NotSaved(xs[1..], saved);
      if Id(xs[0]) !in saved then
        PrependAscending(xs, rest);
        [xs[0]] + rest
      else rest
  }

  /** The identifiers of `xs`, in order. */
  function Ids(xs: seq<Achievement>): (r: seq<string>)
    ensures |r| == |xs|
    ensures forall i :: 0 <= i < |xs| ==> r[i] == Id(xs[i])
  {
    if xs == [] then [] else [Id(xs[0])] + Ids(xs[1..])
  }

  /** An identifier is in `Ids(xs)` exactly when its achievement is in `xs`. */
  lemma IdInIds(a: Achievement, xs: seq<Achievement>)
    ensures Id(a) in Ids(xs) <==> a in xs
  {
    if Id(a) in Ids(xs) {
      var i :| 0 <= i < |xs| && Ids(xs)[i] == Id(a);
      IdInjective(a, xs[i]);
    }
  }

  /** Achievements met now whose identifier is not yet saved, in catalog
      order: what `checkNewAchievements` announces. */
  function NewlyUnlocked(s: Stats, saved: seq<string>): (r: seq<Achievement>)
    ensures forall a :: a in r <==> Holds(a, s) && Id(a) !in saved
    ensures Ascending(r)
  {
    NotSaved(Unlocked(s), saved)
  }

  /** The saved list after `checkNewAchievements`: replaced by the
      identifiers of everything met now when something is new, otherwise
      left as it was. It is overwritten, not merged. */
  function SavedAfterCheck(s: Stats, saved: seq<string>): (r: seq<string>)
    ensures NewlyUnlocked(s, saved) == [] ==> r == saved
    ensures NewlyUnlocked(s, saved) != [] ==>
      forall a :: Id(a) in r <==> Holds(a, s)
  {
    if NewlyUnlocked(s, saved) == [] then saved
    else
      var r := Ids(Unlocked(s));
      assert forall a :: Id(a) in r <==> Holds(a, s) by {
        forall a ensures Id(a) in r <==> Holds(a, s) { IdInIds(a, Unlocked(s)); }
      }
      r
  }

  /** Because the saved list is overwritten rather than merged, an
      identifier that was saved can drop out of it. With between 1000 and
      1049 points and nine hints used, once a check has saved
      `points_collector`, buying the tenth hint (50 points) brings
      `hint_master` as the only news, and the check that announces it
      replaces the list by one without `points_collector`. */
  lemma SavedListCanShrink(before: Stats, saved0: seq<string>)
    requires 1000 <= before.totalPoints < 1050 && before.hintsUsed == 9
    requires NewlyUnlocked(before, saved0) != []
    ensures var saved := SavedAfterCheck(before, saved0);
            var after := before.(totalPoints := before.totalPoints - 50, hintsUsed := 10);
            && Id(PointsCollector) in saved
            && (forall a :: a in NewlyUnlocked(after, saved) <==> a == HintMaster)
            && Id(PointsCollector) !in SavedAfterCheck(after, saved)
  {
    var saved := SavedAfterCheck(before, saved0);
    var after := before.(totalPoints := before.totalPoints - 50, hintsUsed := 10);
    var news := NewlyUnlocked(after, saved);
    assert Holds(HintMaster, after) && !Holds(HintMaster, before);
    assert HintMaster in news;
    forall a | a in news ensures a == HintMaster {
      if a != HintMaster {
        assert Holds(a, before);
      }
    }
  }

  /** The check after a win can drop a saved identifier too: with nine wins
      and points that stay below 1000 after a win with five misses, that win
      brings `ten_wins` as news, and the list that replaces the saved one no
      longer holds `points_collector`. */
  lemma WinCheckCanDrop(s: Stats, saved: seq<string>)
    requires s.totalWins == 9 && s.totalPoints + WinAward(5) < 1000
    requires Id(PointsCollector) in saved && Id(TenWins) !in saved
    ensures TenWins in NewlyUnlocked(AfterWin(s, 5), saved)
    ensures Id(PointsCollector) !in SavedAfterCheck(AfterWin(s, 5), saved)
  {
  }

  /** Win rate as a whole percentage: `Math.round(100 * wins / games)`,
      0 before any game. */
  function WinRate(wins: nat, games: nat): (rate: nat)
    ensures games == 0 ==> rate == 0
    ensures games > 0 ==>
      2 * games * rate <= 200 * wins + games < 2 * games * (rate + 1)
    ensures wins <= games ==> rate <= 100
  {
    if games == 0 then 0
    else
      var rate := (200 * wins + games) / (2 * games);
      DivBounds(200 * wins + games, 2 * games);
      RateAtMostHundred(wins, games, rate);
      rate
  }

  lemma DivBounds(n: nat, d: nat)
    requires d > 0
    ensures d * (n / d) <= n < d * (n / d + 1)
  {
  }

  lemma RateAtMostHundred(wins: nat, games: nat, rate: nat)
    requires games > 0 && 2 * games * rate <= 200 * wins + games
    ensures wins <= games ==> rate <= 100
  {
    if wins <= games {
      assert 2 * games * rate < 2 * games * 101;
      MulCancel(2 * games, rate, 101);
    }
  }

  lemma MulCancel(g: nat, a: nat, b: nat)
    requires g > 0 && g * a < g * b
    ensures a < b
  {
  }

  /** What `getStats` hands out: the counters and the win rate. */
  datatype Report = Report(stats: Stats, winRate: nat)

  /**
   * The process-wide ledger. Each counter is a field that the recording
   * methods update in place; `unlockedSaved` stands for the storage slot
   * that keeps the identifiers of announced achievements.
   */
  class Ledger {
    var totalWins: nat
    var totalLosses: nat
    var totalPoints: int
    var currentStreak: nat
    var maxStreak: nat
    var hintsUsed: nat
    var gamesPlayed: nat
    var perfectGames: nat
    var unlockedSaved: seq<string>

    /** The counters as one value. */
    function Snapshot(): Stats
      reads this
    {
      Stats(totalWins, totalLosses, totalPoints, currentStreak,
            maxStreak, hintsUsed, gamesPlayed, perfectGames)
    }

    predicate Valid()
      reads this
    {
      Consistent(Snapshot())
    }

    /** A first start: all counters zero, nothing saved. */
    constructor ()
      ensures Valid()
      ensures Snapshot() == ZeroStats && unlockedSaved == []
    {
      totalWins, totalLosses, totalPoints, currentStreak := 0, 0, 0, 0;
      maxStreak, hintsUsed, gamesPlayed, perfectGames := 0, 0, 0, 0;
      unlockedSaved := [];
    }

    /** Adds `points` (which may be negative) and returns the new total. */
    method AddPoints(points: int) returns (total: int)
      requires Valid()
      modifies this
      ensures Valid()
      ensures Snapshot() == old(Snapshot()).(totalPoints := old(totalPoints) + points)
      ensures total == totalPoints
      ensures unlockedSaved == old(unlockedSaved)
    {
      totalPoints := totalPoints + points;
      total := totalPoints;
    }

    /** Records a win after `wrongGuesses` misses and returns the points it
        earned, which are added to the total. */
    method RecordWin(wrongGuesses: int := 0) returns (points: int)
      requires Valid()
      modifies this
      ensures Valid()
      ensures points == WinAward(wrongGuesses)
      ensures totalPoints == old(totalPoints) + points
      ensures Snapshot() == AfterWin(old(Snapshot()), wrongGuesses)
      ensures unlockedSaved == old(unlockedSaved)
    {
      totalWins := totalWins + 1;
      gamesPlayed := gamesPlayed + 1;
      currentStreak := currentStreak + 1;
      if currentStreak > maxStreak {
        maxStreak := currentStreak;
      }
      points := WinAward(wrongGuesses);
      var _ := AddPoints(points);
      if wrongGuesses == 0 {
        perfectGames := perfectGames + 1;
      }
    }

    /** Records a loss: the streak ends. */
    method RecordLoss()
      requires Valid()
      modifies this
      ensures Valid()
      ensures Snapshot() == AfterLoss(old(Snapshot()))
      ensures unlockedSaved == old(unlockedSaved)
    {
      totalLosses := totalLosses + 1;
      gamesPlayed := gamesPlayed + 1;
      currentStreak := 0;
    }

    /** Counts one more hint. */
    method RecordHintUsed()
      requires Valid()
      modifies this
      ensures Valid()
      ensures Snapshot() == old(Snapshot()).(hintsUsed := old(hintsUsed) + 1)
      ensures unlockedSaved == old(unlockedSaved)
    {
      hintsUsed := hintsUsed + 1;
    }

    /** Announces the achievements met now and not yet saved; when there are
        any, the saved list becomes the identifiers of everything met now. */
    method CheckNewAchievements() returns (announced: seq<Achievement>)
      requires Valid()
      modifies this`unlockedSaved
      ensures Valid()
      ensures forall a :: a in announced <==> Holds(a, Snapshot()) && Id(a) !in old(unlockedSaved)
      ensures Ascending(announced)
      ensures announced == [] ==> unlockedSaved == old(unlockedSaved)
      ensures announced != [] ==> unlockedSaved == Ids(Unlocked(Snapshot()))
      ensures unlockedSaved == SavedAfterCheck(Snapshot(), old(unlockedSaved))
    {
      var unlocked := Unlocked(Snapshot());
      announced := NotSaved(unlocked, unlockedSaved);
      if |announced| > 0 {
        unlockedSaved := Ids(unlocked);
      }
    }

    /** Zeroes every counter and forgets every saved identifier. */
    method Reset()
      modifies this
      ensures Valid()
      ensures Snapshot() == ZeroStats && unlockedSaved == []
    {
      totalWins, totalLosses, totalPoints, currentStreak := 0, 0, 0, 0;
      maxStreak, hintsUsed, gamesPlayed, perfectGames := 0, 0, 0, 0;
      unlockedSaved := [];
    }

    /** The counters together with the win rate. */
    function GetStats(): (r: Report)
      reads this
      ensures r.stats == Snapshot()
      ensures Valid() ==> r.winRate <= 100
      ensures gamesPlayed == 0 ==> r.winRate == 0
      ensures gamesPlayed > 0 ==>
        2 * gamesPlayed * r.winRate <= 200 * totalWins + gamesPlayed
                                    < 2 * gamesPlayed * (r.winRate + 1)
    {
      Report(Snapshot(), WinRate(totalWins, gamesPlayed))
    }
  }

  /** Five straight wins from a reset ledger, with the achievements checked
      after each: the fifth check announces `five_wins` and `streak_master`,
      whatever the misses were. */
  lemma FiveStraightWins(w1: int, w2: int, w3: int, w4: int, w5: int)
    ensures var s1 := AfterWin(ZeroStats, w1);
            var saved1 := SavedAfterCheck(s1, []);
            var s2 := AfterWin(s1, w2);
            var saved2 := SavedAfterCheck(s2, saved1);
            var s3 := AfterWin(s2, w3);
            var saved3 := SavedAfterCheck(s3, saved2);
            var s4 := AfterWin(s3, w4);
            var saved4 := SavedAfterCheck(s4, saved3);
            var s5 := AfterWin(s4, w5);
            && FiveWins in NewlyUnlocked(s5, saved4)
            && StreakMaster in NewlyUnlocked(s5, saved4)
  {
    var s1 := AfterWin(ZeroStats, w1);
    NeitherSaved(s1, []);
    var saved1 := SavedAfterCheck(s1, []);
    var s2 := AfterWin(s1, w2);
    NeitherSaved(s2, saved1);
    var saved2 := SavedAfterCheck(s2, saved1);
    var s3 := AfterWin(s2, w3);
    NeitherSaved(s3, saved2);
    var saved3 := SavedAfterCheck(s3, saved2);
    var s4 := AfterWin(s3, w4);
    NeitherSaved(s4, saved3);
    var saved4 := SavedAfterCheck(s4, saved3);
    BothAnnounced(AfterWin(s4, w5), saved4);
  }

  /** Below five wins and a best streak of five, a check never saves the
      identifiers of `five_wins` and `streak_master` if they were not saved. */
  lemma NeitherSaved(s: Stats, saved: seq<string>)
    requires s.totalWins < 5 && s.maxStreak < 5
    requires Id(FiveWins) !in saved && Id(StreakMaster) !in saved
    ensures Id(FiveWins) !in SavedAfterCheck(s, saved)
    ensures Id(StreakMaster) !in SavedAfterCheck(s, saved)
  {
  }

  /** At five wins and a best streak of five, a check announces both
      `five_wins` and `streak_master` if neither was saved. */
  lemma BothAnnounced(s: Stats, saved: seq<string>)
    requires s.totalWins >= 5 && s.maxStreak >= 5
    requires Id(FiveWins) !in saved && Id(StreakMaster) !in saved
    ensures FiveWins in NewlyUnlocked(s, saved) && StreakMaster in NewlyUnlocked(s, saved)
  {
  }
}
