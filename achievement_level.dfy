/**
 * The achievement-level classifier of the API: the `Level` getter of
 * `UserAverageAchievement`. A user's library is given as the list of its
 * per-game completion percentages (the `AchievementPercentage` of each
 * `CalculatedUserAchievementForGame`, in list order); the level is decided
 * highest tier first from the number of games and an every-game threshold.
 */
module AchievementLevels {

  datatype AchievementLevel = None | Bronze | Silver | Gold | Platinum

  /** The record the getter belongs to; only its percentage list decides the level. */
  datatype UserAverageAchievement = UserAverageAchievement(userId: int, gamePercentages: seq<int>)

  /** LINQ's `All`: true when every element satisfies `p` (vacuously on an empty list). */
  predicate All<T>(xs: seq<T>, p: T -> bool)
  {
    |xs| == 0 || (p(xs[0]) && All(xs[1..], p))
  }

  /** The per-game predicates of the three upper tiers. */
  predicate IsComplete(percentage: int) { percentage == 100 }
  predicate MeetsGold(percentage: int) { percentage >= 80 }
  predicate MeetsSilver(percentage: int) { percentage >= 75 }

  /** The `Level` getter: first matching tier wins. */
  function Level(gamePercentages: seq<int>): (level: AchievementLevel)
    ensures |gamePercentages| < 10 ==> level == None
    ensures level == Bronze ==> |gamePercentages| > 10
  {
    var count := |gamePercentages|;
    if count >= 50 && All(gamePercentages, IsComplete) then Platinum
    else if count >= 25 && All(gamePercentages, MeetsGold) then Gold
    else if count >= 10 && All(gamePercentages, MeetsSilver) then Silver
    else if count > 10 then Bronze
    else None
  }

  /** The level of a `UserAverageAchievement` record: its user id plays no part. */
  function LevelOf(u: UserAverageAchievement): AchievementLevel
  {
    Level(u.gamePercentages)
  }

  /** Orders the tiers, None lowest. */
  function Rank(level: AchievementLevel): nat
  {
    match level
    case None => 0
    case Bronze => 1
    case Silver => 2
    case Gold => 3
    case Platinum => 4
  }

  // ---------------------------------------------------------------------
  // `All` against its quantified reading

  lemma {:induction false} AllMeans<T>(xs: seq<T>, p: T -> bool)
    ensures All(xs, p) <==> forall i :: 0 <= i < |xs| ==> p(xs[i])
  {
    if |xs| > 0 {
      AllMeans(xs[1..], p);
      assert forall i :: 1 <= i < |xs| ==> xs[i] == xs[1..][i - 1];
    }
  }

  /** `All` looks only at which values occur, not at their positions. */
  lemma AllByMembers<T>(xs: seq<T>, p: T -> bool)
    ensures All(xs, p) <==> forall x :: x in xs ==> p(x)
  {
  }

  // ---------------------------------------------------------------------
  // Each tier, both directions

  lemma PlatinumIff(ps: seq<int>)
    ensures Level(ps) == Platinum <==> |ps| >= 50 && forall i :: 0 <= i < |ps| ==> ps[i] == 100
  {
    AllMeans(ps, IsComplete);
  }

  lemma GoldIff(ps: seq<int>)
    ensures Level(ps) == Gold <==>
      Level(ps) != Platinum && |ps| >= 25 && forall i :: 0 <= i < |ps| ==> ps[i] >= 80
  {
    AllMeans(ps, IsComplete);
    AllMeans(ps, MeetsGold);
  }

  lemma SilverIff(ps: seq<int>)
    ensures Level(ps) == Silver <==>
      Level(ps) != Platinum && Level(ps) != Gold && |ps| >= 10 && forall i :: 0 <= i < |ps| ==> ps[i] >= 75
  {
    AllMeans(ps, IsComplete);
    AllMeans(ps, MeetsGold);
    AllMeans(ps, MeetsSilver);
  }

  /** Bronze needs strictly more than ten games, at least one of them below 75. */
  lemma BronzeIff(ps: seq<int>)
    ensures Level(ps) == Bronze <==> |ps| > 10 && exists i :: 0 <= i < |ps| && ps[i] < 75
  {
    AllMeans(ps, IsComplete);
    AllMeans(ps, MeetsGold);
    AllMeans(ps, MeetsSilver);
    if |ps| > 10 && exists i :: 0 <= i < |ps| && ps[i] < 75 {
      var i :| 0 <= i < |ps| && ps[i] < 75;
      assert !IsComplete(ps[i]) && !MeetsGold(ps[i]) && !MeetsSilver(ps[i]);
    }
  }

  /** None: fewer than ten games, or exactly ten with one of them below 75. */
  lemma NoneIff(ps: seq<int>)
    ensures Level(ps) == None <==>
      |ps| < 10 || (|ps| == 10 && exists i :: 0 <= i < |ps| && ps[i] < 75)
  {
    AllMeans(ps, MeetsSilver);
    if |ps| == 10 && exists i :: 0 <= i < |ps| && ps[i] < 75 {
      var i :| 0 <= i < |ps| && ps[i] < 75;
      assert !MeetsSilver(ps[i]);
    }
  }

  /** The empty list (an unknown user, or one owning no games) is None. */
  lemma EmptyIsNone()
    ensures Level([]) == None
  {
  }

  /** Exactly ten games, any of them below 75: None, not Bronze. */
  lemma TenGamesBelowSilverIsNone(ps: seq<int>, i: int)
    requires |ps| == 10 && 0 <= i < 10 && ps[i] < 75
    ensures Level(ps) == None
  {
    NoneIff(ps);
  }

  /** The rule is per game, not an average: ten games at 100 and one at 0 is Bronze. */
  lemma {:induction false} PerGameNotAverage()
    ensures Level(seq(11, i => if i == 10 then 0 else 100)) == Bronze
  {
    var ps := seq(11, i => if i == 10 then 0 else 100);
    assert ps[10] < 75;
    BronzeIff(ps);
  }

  // ---------------------------------------------------------------------
  // Order independence and monotonicity

  /** The level depends only on the multiset of percentages. */
  lemma LevelIgnoresOrder(ps: seq<int>, qs: seq<int>)
    requires multiset(ps) == multiset(qs)
    ensures Level(ps) == Level(qs)
  {
    assert |ps| == |multiset(ps)| == |multiset(qs)| == |qs|;
    assert forall x :: x in ps <==> x in qs by {
      forall x ensures x in ps <==> x in qs {
        assert x in ps <==> x in multiset(ps);
        assert x in qs <==> x in multiset(qs);
      }
    }
    AllByMembers(ps, IsComplete);
    AllByMembers(qs, IsComplete);
    AllByMembers(ps, MeetsGold);
    AllByMembers(qs, MeetsGold);
    AllByMembers(ps, MeetsSilver);
    AllByMembers(qs, MeetsSilver);
  }

  /** Percentages as a well-formed completion record yields them. */
  predicate InPercentRange(ps: seq<int>)
  {
    forall i :: 0 <= i < |ps| ==> 0 <= ps[i] <= 100
  }

  /**
   * At a fixed count, raising percentages (staying within 0..100) never
   * lowers the level.
   */
  lemma RaisingNeverLowers(ps: seq<int>, qs: seq<int>)
    requires |ps| == |qs| && InPercentRange(qs)
    requires forall i :: 0 <= i < |ps| ==> ps[i] <= qs[i]
    ensures Rank(Level(ps)) <= Rank(Level(qs))
  {
    AllMeans(ps, IsComplete);
    AllMeans(qs, IsComplete);
    AllMeans(ps, MeetsGold);
    AllMeans(qs, MeetsGold);
    AllMeans(ps, MeetsSilver);
    AllMeans(qs, MeetsSilver);
  }

  /**
   * Without the 0..100 bound the getter is not monotone: Platinum asks for
   * exactly 100, so raising one of fifty perfect games to 101 drops the
   * library to Gold.
   */
  lemma RaisingPastHundredLowers()
    ensures Level(seq(50, i => 100)) == Platinum
    ensures Level(seq(50, i => if i == 0 then 101 else 100)) == Gold
  {
    var ps := seq(50, i => 100);
    var qs := seq(50, i => if i == 0 then 101 else 100);
    PlatinumIff(ps);
    PlatinumIff(qs);
    assert qs[0] != 100;
    AllMeans(qs, MeetsGold);
  }

  // ---------------------------------------------------------------------
  // The service-test expectations

  /** A library of `n` games, all at the same percentage. */
  function Uniform(n: nat, percentage: int): (ps: seq<int>)
    ensures |ps| == n && forall i :: 0 <= i < n ==> ps[i] == percentage
  {
    seq(n, i => percentage)
  }

  /**
   * The four test rows: one initial game plus 11, 11, 26 and 50 added
   * games, every one at 10%, 75%, 80% and 100% respectively, whatever
   * the user.
   */
  lemma ServiceTestLevels(userId: int)
    ensures LevelOf(UserAverageAchievement(userId, Uniform(12, 10))) == Bronze
    ensures LevelOf(UserAverageAchievement(userId, Uniform(12, 75))) == Silver
    ensures LevelOf(UserAverageAchievement(userId, Uniform(27, 80))) == Gold
    ensures LevelOf(UserAverageAchievement(userId, Uniform(51, 100))) == Platinum
  {
    var bronze := Uniform(12, 10);
    assert bronze[0] < 75;
    BronzeIff(bronze);
    var silver := Uniform(12, 75);
    AllMeans(silver, MeetsSilver);
    assert silver[0] != 100 && silver[0] < 80;
    PlatinumIff(silver);
    AllMeans(silver, MeetsGold);
    var gold := Uniform(27, 80);
    AllMeans(gold, MeetsGold);
    PlatinumIff(gold);
    PlatinumIff(Uniform(51, 100));
  }
}
