/**
 * The achievement service (Services/AchievementService.cs): the fifteen
 * built-in achievements, progress loaded from the adventurer profile,
 * threshold unlocking with rewards paid through the economy service, and
 * the read-only queries. The list of achievement objects, updated in place
 * by the source, is a sequence field whose elements the methods replace; the
 * AchievementUnlocked event is a log of the achievements it carried. The
 * unlock time (`DateTime.Now`) is a parameter, one reading per call.
 */
module AchievementSystem {
  import opened Wrappers
  import opened Adventurer
  import opened Economy
  import opened Achievements

  /** An object initializer over the declared defaults. */
  function Entry(id: string, name: string, description: string, icon: string, kind: AchievementType,
                 targetValue: int, rewardGold: int, rewardExp: int): Achievement
  {
    Blank.(id := id, name := name, description := description, icon := icon, kind := kind,
           targetValue := targetValue, rewardGold := rewardGold, rewardExp := rewardExp)
  }

  /** `InitializeAchievements`. */
  function InitialAchievements(): seq<Achievement> {
    [ Entry("work_1h", "初出茅庐", "累计工作1小时", "🌱", WorkHours, 3600, 50, 25),
      Entry("work_10h", "勤奋工作者", "累计工作10小时", "💼", WorkHours, 36000, 200, 100),
      Entry("work_100h", "时间大师", "累计工作100小时", "⏰", WorkHours, 360000, 1000, 500),
      Entry("work_1000h", "传奇工匠", "累计工作1000小时", "👑", WorkHours, 3600000, 5000, 2500),
      Entry("consecutive_3", "三日之约", "连续工作3天", "🔥", Consecutive, 3, 100, 50),
      Entry("consecutive_7", "一周坚持", "连续工作7天", "⭐", Consecutive, 7, 300, 150),
      Entry("consecutive_30", "月度冠军", "连续工作30天", "🏆", Consecutive, 30, 1500, 750),
      Entry("consecutive_100", "百日修行", "连续工作100天", "💎", Consecutive, 100, 5000, 2500),
      Entry("gold_1000", "小富即安", "累计获得1000金币", "💰", Earnings, 1000, 100, 50),
      Entry("gold_10000", "财源广进", "累计获得10000金币", "💸", Earnings, 10000, 500, 250),
      Entry("gold_100000", "富甲一方", "累计获得100000金币", "🏦", Earnings, 100000, 2000, 1000),
      Entry("first_work", "新的开始", "完成第一次工作记录", "🎉", Special, 1, 50, 25),
      Entry("early_bird", "早起的鸟儿", "在早上6点前开始工作", "🌅", Special, 1, 100, 50),
      Entry("night_owl", "夜猫子", "在晚上10点后还在工作", "🦉", Special, 1, 100, 50),
      Entry("workaholic", "工作狂", "单次工作超过8小时", "🔋", Special, 28800, 200, 100) ]
  }

  function Ids(list: seq<Achievement>): (ids: seq<string>)
    ensures |ids| == |list| && forall i :: 0 <= i < |list| ==> ids[i] == list[i].id
  {
    seq(|list|, i requires 0 <= i < |list| => list[i].id)
  }

  /** The built-in list: fifteen achievements, all locked, without progress,
      with positive targets and rewards, none of kind `Project`. */
  lemma InitialFacts()
    ensures |InitialAchievements()| == 15
    ensures forall i :: 0 <= i < |InitialAchievements()| ==> Fresh(InitialAchievements()[i])
  {
    var list := InitialAchievements();
    forall i | 0 <= i < |list|
      ensures Fresh(list[i])
    {
      assert list[i].isUnlocked == Blank.isUnlocked;
    }
  }

  /** Locked, without progress, with a positive target and rewards, and of a
      kind other than `Project`. */
  predicate Fresh(a: Achievement) {
    && !a.isUnlocked && a.unlockedAt.None? && a.currentProgress == 0
    && a.targetValue > 0 && a.rewardGold > 0 && a.rewardExp > 0 && a.kind != Project
  }

  /** The built-in ids are distinct. */
  lemma InitialIdsDistinct()
    ensures Distinct(Ids(InitialAchievements()))
  {
    var ids := Ids(InitialAchievements());
    forall i, j | 0 <= i < j < |ids|
      ensures ids[i] != ids[j]
    {
      assert ids[i][..|ids[i]|] == ids[i];
      if |ids[i]| == |ids[j]| {
        var k :| 0 <= k < |ids[i]| && ids[i][k] != ids[j][k];
      }
    }
  }

  /** `(int)` of a `long`: the low 32 bits, read as a signed number. */
  function ToInt32(x: int): (r: int)
    ensures -0x8000_0000 <= r < 0x8000_0000
    ensures -0x8000_0000 <= x < 0x8000_0000 ==> r == x
    ensures (x - r) % 0x1_0000_0000 == 0
  {
    (x + 0x8000_0000) % 0x1_0000_0000 - 0x8000_0000
  }

  /** `LoadProgress` for one achievement: locked or not as the profile's list
      says; progress from the profile's work total, streak or gold by kind;
      `Project` and `Special` progress left as it was. */
  function LoadOne(a: Achievement, p: ProfileState): Achievement
  {
    var progress := match a.kind
      case WorkHours => ToInt32(p.totalWorkSeconds)
      case Consecutive => p.consecutiveDays
      case Earnings => p.gold
      case _ => a.currentProgress;
    a.(isUnlocked := a.id in p.unlockedAchievements, currentProgress := progress)
  }

  function Load(list: seq<Achievement>, p: ProfileState): (r: seq<Achievement>)
    ensures |r| == |list| && forall i :: 0 <= i < |list| ==> r[i] == LoadOne(list[i], p)
  {
    seq(|list|, i requires 0 <= i < |list| => LoadOne(list[i], p))
  }

  /** Loading changes only the lock flag and the progress, and the flag is
      exactly membership in the profile's list. */
  lemma LoadKeepsDefinitions(list: seq<Achievement>, p: ProfileState)
    ensures forall i :: 0 <= i < |list| ==>
              && Load(list, p)[i].isUnlocked == (list[i].id in p.unlockedAchievements)
              && SameDefinition(Load(list, p)[i], list[i])
              && Load(list, p)[i].unlockedAt == list[i].unlockedAt
    ensures forall i :: 0 <= i < |list| && list[i].kind in {Project, Special} ==>
              Load(list, p)[i].currentProgress == list[i].currentProgress
  {
  }

  /** Two records of the same achievement: equal in everything but the lock
      flag, the unlock time and the progress. */
  predicate SameDefinition(a: Achievement, b: Achievement) {
    && a.id == b.id && a.name == b.name && a.description == b.description && a.icon == b.icon
    && a.kind == b.kind && a.rewardGold == b.rewardGold && a.rewardExp == b.rewardExp
    && a.targetValue == b.targetValue
  }

  /** Eligible for unlocking in `CheckAchievements`. */
  predicate Reached(a: Achievement) {
    !a.isUnlocked && a.currentProgress >= a.targetValue
  }

  /** The record after `UnlockAchievement`. */
  function Granted(a: Achievement, now: int): Achievement {
    a.(isUnlocked := true, unlockedAt := Some(now))
  }

  /** The list after the unlocking loop over `list`. */
  function Checked(list: seq<Achievement>, now: int): (r: seq<Achievement>)
    ensures |r| == |list|
    ensures forall i :: 0 <= i < |list| ==> r[i] == if Reached(list[i]) then Granted(list[i], now) else list[i]
  {
    seq(|list|, i requires 0 <= i < |list| => if Reached(list[i]) then Granted(list[i], now) else list[i])
  }

  /** After the loop an achievement is unlocked exactly when it was unlocked
      before or its progress had reached its target; nothing else changes. */
  lemma CheckedUnlocks(list: seq<Achievement>, now: int)
    ensures forall i :: 0 <= i < |list| ==>
              && Checked(list, now)[i].isUnlocked == (list[i].isUnlocked || list[i].currentProgress >= list[i].targetValue)
              && SameDefinition(Checked(list, now)[i], list[i])
              && Checked(list, now)[i].currentProgress == list[i].currentProgress
  {
  }

  /** What unlocking `a` does to the profile: the id recorded, then its gold,
      then its experience. */
  function Reward(p: ProfileState, a: Achievement): ProfileState {
    var q := RecordAchievement(p, a.id).profile;
    GainExperience(EarnGold(q, a.rewardGold), a.rewardExp).profile
  }

  /** The economy events of unlocking `a`. */
  function RewardEvents(p: ProfileState, a: Achievement): seq<EconomyEvent> {
    var q := RecordAchievement(p, a.id).profile;
    [GoldEvent(q, a.rewardGold)] + ExpEvents(EarnGold(q, a.rewardGold), a.rewardExp)
  }

  /** The profile after paying for every reached achievement of `list`, in
      order. */
  function Payout(p: ProfileState, list: seq<Achievement>): ProfileState
  {
    if list == [] then p
    else
      var q := Payout(p, list[..|list| - 1]);
      if Reached(list[|list| - 1]) then Reward(q, list[|list| - 1]) else q
  }

  function PayoutEvents(p: ProfileState, list: seq<Achievement>): seq<EconomyEvent>
  {
    if list == [] then []
    else
      var q := Payout(p, list[..|list| - 1]);
      PayoutEvents(p, list[..|list| - 1]) + if Reached(list[|list| - 1]) then RewardEvents(q, list[|list| - 1]) else []
  }

  /** The AchievementUnlocked payloads of the loop, in order. */
  function Unlocked(list: seq<Achievement>, now: int): seq<Achievement>
  {
    if list == [] then []
    else Unlocked(list[..|list| - 1], now) + if Reached(list[|list| - 1]) then [Granted(list[|list| - 1], now)] else []
  }

  /** The gold and experience promised by the reached achievements. */
  function GoldDue(list: seq<Achievement>): int {
    if list == [] then 0
    else GoldDue(list[..|list| - 1]) + if Reached(list[|list| - 1]) then list[|list| - 1].rewardGold else 0
  }

  function ExpDue(list: seq<Achievement>): int {
    if list == [] then 0
    else ExpDue(list[..|list| - 1]) + if Reached(list[|list| - 1]) then list[|list| - 1].rewardExp else 0
  }

  /** Each reached achievement is paid exactly its reward: the gold and the
      experience added are the sums due, every reached id is recorded, and
      nothing but gold, level, experience and the achievement list changes. */
  lemma {:induction false} PayoutPaysDue(p: ProfileState, list: seq<Achievement>)
    ensures Payout(p, list).gold == p.gold + GoldDue(list)
    ensures TotalExperience(Payout(p, list)) == TotalExperience(p) + ExpDue(list)
    ensures forall a :: a in list && Reached(a) ==> a.id in Payout(p, list).unlockedAchievements
    ensures forall id :: id in p.unlockedAchievements ==> id in Payout(p, list).unlockedAchievements
    ensures Payout(p, list) == p.(gold := Payout(p, list).gold, level := Payout(p, list).level,
                                experience := Payout(p, list).experience,
                                unlockedAchievements := Payout(p, list).unlockedAchievements)
    ensures p.Valid() ==> Payout(p, list).Valid()
  {
    if list != [] {
      var init := list[..|list| - 1];
      PayoutPaysDue(p, init);
      assert forall a :: a in list ==> a in init || a == list[|list| - 1];
    }
  }

  /** No reward is paid twice: every achievement unlocked after a check is
      read back as unlocked from the paid profile, so the next check skips it. */
  lemma {:induction false} NoSecondPayment(list: seq<Achievement>, p: ProfileState, now: int)
    ensures var loaded := Load(list, p);
            var after := Checked(loaded, now);
            forall i :: 0 <= i < |after| && after[i].isUnlocked ==>
              LoadOne(after[i], Payout(p, loaded)).isUnlocked && !Reached(LoadOne(after[i], Payout(p, loaded)))
  {
    var loaded := Load(list, p);
    var after := Checked(loaded, now);
    PayoutPaysDue(p, loaded);
    forall i | 0 <= i < |after| && after[i].isUnlocked
      ensures after[i].id in Payout(p, loaded).unlockedAchievements
    {
      assert loaded[i] in loaded;
    }
  }

  /** One more achievement in the loop: its payout, events and payload are
      added after those of the ones before it. */
  lemma PayoutStep(p: ProfileState, list: seq<Achievement>, i: int, now: int)
    requires 0 <= i < |list|
    ensures var q := Payout(p, list[..i]);
            && Payout(p, list[..i + 1]) == (if Reached(list[i]) then Reward(q, list[i]) else q)
            && PayoutEvents(p, list[..i + 1])
               == PayoutEvents(p, list[..i]) + (if Reached(list[i]) then RewardEvents(q, list[i]) else [])
            && Unlocked(list[..i + 1], now)
               == Unlocked(list[..i], now) + (if Reached(list[i]) then [Granted(list[i], now)] else [])
  {
    assert list[..i + 1][..i] == list[..i];
  }

  lemma AppendAssoc<T>(a: seq<T>, b: seq<T>, c: seq<T>)
    ensures a + b + c == a + (b + c)
  {
  }

  /** Unlocking keeps the built-in definitions. */
  lemma CheckedTracks(list: seq<Achievement>, now: int)
    requires Tracks(list)
    ensures Tracks(Checked(list, now))
  {
    CheckedUnlocks(list, now);
  }

  /** `GetUnlockedAchievements` and `GetLockedAchievements`: the unlocked and
      the locked achievements, in list order. */
  function UnlockedOf(list: seq<Achievement>): seq<Achievement>
  {
    if list == [] then []
    else UnlockedOf(list[..|list| - 1]) + if list[|list| - 1].isUnlocked then [list[|list| - 1]] else []
  }

  function LockedOf(list: seq<Achievement>): seq<Achievement>
  {
    if list == [] then []
    else LockedOf(list[..|list| - 1]) + if !list[|list| - 1].isUnlocked then [list[|list| - 1]] else []
  }

  /** The two queries split the list: the first holds only unlocked
      achievements, the second only locked ones, and together they hold every
      achievement exactly as often as the list does. */
  lemma {:induction false} UnlockedLockedPartition(list: seq<Achievement>)
    ensures forall a :: a in UnlockedOf(list) ==> a.isUnlocked
    ensures forall a :: a in LockedOf(list) ==> !a.isUnlocked
    ensures multiset(UnlockedOf(list)) + multiset(LockedOf(list)) == multiset(list)
    ensures |UnlockedOf(list)| + |LockedOf(list)| == |list|
  {
    if list != [] {
      var init, last := list[..|list| - 1], list[|list| - 1];
      UnlockedLockedPartition(init);
      assert list == init + [last];
      var u, l := UnlockedOf(init), LockedOf(init);
      if last.isUnlocked {
        assert UnlockedOf(list) == u + [last] && LockedOf(list) == l;
        assert multiset(UnlockedOf(list)) == multiset(u) + multiset{last};
      } else {
        assert UnlockedOf(list) == u && LockedOf(list) == l + [last];
        assert multiset(LockedOf(list)) == multiset(l) + multiset{last};
      }
      assert multiset(list) == multiset(init) + multiset{last};
    }
  }

  lemma {:induction false} UnlockedCount(list: seq<Achievement>)
    ensures |UnlockedOf(list)| <= |list|
  {
    if list != [] {
      UnlockedCount(list[..|list| - 1]);
    }
  }

  datatype AchievementStatistics = AchievementStatistics(total: int, unlocked: int, percentage: Option<real>)

  /** `GetStatistics`: the count, the unlocked count and their ratio in per
      cent; the ratio is `None` for an empty list, where the double division
      has no finite value. */
  function GetStatistics(list: seq<Achievement>): (s: AchievementStatistics)
    ensures s.total == |list| && s.unlocked == |UnlockedOf(list)|
    ensures s.percentage.Some? <==> s.total > 0
  {
    var total := |list|;
    var unlocked := |UnlockedOf(list)|;
    AchievementStatistics(total, unlocked,
                          if total == 0 then None else Some(unlocked as real / total as real * 100.0))
  }

  /** A count out of a positive total, in per cent. */
  lemma PercentOf(u: int, t: int)
    requires 0 <= u <= t && t > 0
    ensures u as real / t as real * 100.0 * t as real == u as real * 100.0
    ensures 0.0 <= u as real / t as real * 100.0 <= 100.0
  {
    var p := u as real / t as real * 100.0;
    assert p * t as real == u as real * 100.0;
    Ratio(p, t as real, u as real);
  }

  /** The unlocked count never exceeds the total, and the percentage is their
      ratio, between 0 and 100. */
  lemma StatisticsPercentage(list: seq<Achievement>)
    ensures 0 <= GetStatistics(list).unlocked <= GetStatistics(list).total
    ensures list != [] ==>
              && GetStatistics(list).percentage.value * |list| as real == GetStatistics(list).unlocked as real * 100.0
              && 0.0 <= GetStatistics(list).percentage.value <= 100.0
  {
    UnlockedCount(list);
    if list != [] {
      PercentOf(|UnlockedOf(list)|, |list|);
    }
  }

  /** The built-in list, in any state of progress: every record keeps its
      built-in definition, and `Special` ones have no progress. */
  ghost predicate Tracks(list: seq<Achievement>) {
    && |list| == |InitialAchievements()|
    && forall i :: 0 <= i < |list| ==>
         SameDefinition(list[i], InitialAchievements()[i])
         && (list[i].kind == Special ==> list[i].currentProgress == 0)
  }

  /** `Special` achievements are never reached: nothing loads their progress,
      so only an id already in the profile's list unlocks them. */
  lemma SpecialNeverReached(list: seq<Achievement>, p: ProfileState, i: int)
    requires Tracks(list) && 0 <= i < |list| && list[i].kind == Special
    ensures !Reached(Load(list, p)[i])
  {
    InitialFacts();
  }

  class AchievementService {
    var allAchievements: seq<Achievement>
    var unlockEvents: seq<Achievement>
    const economy: EconomyService

    ghost predicate Valid()
      reads this
    {
      Tracks(allAchievements)
    }

    /** The service over the economy service's profile: the built-in list
        with its progress loaded. */
    constructor (economy: EconomyService)
      ensures this.economy == economy
      ensures allAchievements == Load(InitialAchievements(), economy.profile.State())
      ensures unlockEvents == []
      ensures Valid()
    {
      this.economy := economy;
      allAchievements := InitialAchievements();
      unlockEvents := [];
      new;
      LoadProgress();
    }

    method LoadProgress()
      modifies this
      ensures allAchievements == Load(old(allAchievements), economy.profile.State())
      ensures unlockEvents == old(unlockEvents)
      ensures old(Valid()) ==> Valid()
    {
      var p := economy.profile.State();
      for i := 0 to |allAchievements|
        invariant |allAchievements| == |old(allAchievements)|
        invariant forall j :: 0 <= j < i ==> allAchievements[j] == LoadOne(old(allAchievements)[j], p)
        invariant forall j :: i <= j < |allAchievements| ==> allAchievements[j] == old(allAchievements)[j]
        invariant unlockEvents == old(unlockEvents)
      {
        allAchievements := allAchievements[i := LoadOne(allAchievements[i], p)];
      }
      LoadKeepsDefinitions(old(allAchievements), p);
    }

    /** Unlocks the achievement at position `i`: records it, pays its gold
        and experience, and raises the event. */
    method UnlockAchievement(i: int, now: int)
      requires 0 <= i < |allAchievements|
      modifies this, economy, economy.profile
      ensures allAchievements == old(allAchievements)[i := Granted(old(allAchievements)[i], now)]
      ensures economy.profile.State() == Reward(old(economy.profile.State()), old(allAchievements)[i])
      ensures economy.events == old(economy.events) + RewardEvents(old(economy.profile.State()), old(allAchievements)[i])
      ensures unlockEvents == old(unlockEvents) + [Granted(old(allAchievements)[i], now)]
    {
      var a := Granted(allAchievements[i], now);
      allAchievements := allAchievements[i := a];
      var _ := economy.profile.UnlockAchievement(a.id);
      economy.AddGold(a.rewardGold);
      economy.AddExperience(a.rewardExp);
      unlockEvents := unlockEvents + [a];
    }

    /** Loads progress once, then unlocks every achievement whose loaded
        progress reached its target; rewards paid during the loop do not
        change the progress it reads. */
    method CheckAchievements(now: int)
      modifies this, economy, economy.profile
      ensures var loaded := Load(old(allAchievements), old(economy.profile.State()));
              && allAchievements == Checked(loaded, now)
              && economy.profile.State() == Payout(old(economy.profile.State()), loaded)
              && economy.events == old(economy.events) + PayoutEvents(old(economy.profile.State()), loaded)
              && unlockEvents == old(unlockEvents) + Unlocked(loaded, now)
      ensures old(Valid()) ==> Valid()
    {
      LoadProgress();
      UnlockReached(now);
    }

    /** The loop of `CheckAchievements`: one pass over the list as it stands,
        unlocking and paying for every reached achievement in list order. */
    method UnlockReached(now: int)
      modifies this, economy, economy.profile
      ensures var loaded := old(allAchievements);
              && allAchievements == Checked(loaded, now)
              && economy.profile.State() == Payout(old(economy.profile.State()), loaded)
              && economy.events == old(economy.events) + PayoutEvents(old(economy.profile.State()), loaded)
              && unlockEvents == old(unlockEvents) + Unlocked(loaded, now)
      ensures old(Valid()) ==> Valid()
    {
      ghost var p0 := economy.profile.State();
      ghost var e0 := economy.events;
      ghost var u0 := unlockEvents;
      var loaded := allAchievements;
      for i := 0 to |allAchievements|
        invariant |allAchievements| == |loaded|
        invariant forall j :: 0 <= j < i ==>
                    allAchievements[j] == if Reached(loaded[j]) then Granted(loaded[j], now) else loaded[j]
        invariant forall j :: i <= j < |allAchievements| ==> allAchievements[j] == loaded[j]
        invariant economy.profile.State() == Payout(p0, loaded[..i])
        invariant economy.events == e0 + PayoutEvents(p0, loaded[..i])
        invariant unlockEvents == u0 + Unlocked(loaded[..i], now)
      {
        PayoutStep(p0, loaded, i, now);
        if !allAchievements[i].isUnlocked && allAchievements[i].currentProgress >= allAchievements[i].targetValue {
          ghost var q := economy.profile.State();
          UnlockAchievement(i, now);
          AppendAssoc(e0, PayoutEvents(p0, loaded[..i]), RewardEvents(q, loaded[i]));
          AppendAssoc(u0, Unlocked(loaded[..i], now), [Granted(loaded[i], now)]);
        }
      }
      assert loaded[..|loaded|] == loaded;
      assert allAchievements == Checked(loaded, now);
      if Tracks(loaded) {
        CheckedTracks(loaded, now);
      }
    }
  }
}
