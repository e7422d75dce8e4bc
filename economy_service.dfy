/**
 * The economy service (Services/EconomyService.cs): work rewards, gold and
 * experience changes with their events, and the level read-out. The three
 * events are recorded in one log in the order they are raised. Doubles are
 * `real`, and a C# `(int)` cast of a double is `TruncToInt`. Saving the
 * profile after each change is persistence and is not modelled.
 */
module Economy {
  import opened Wrappers
  import opened Adventurer

  datatype EconomyEvent =
    | LevelUp(oldLevel: int, newLevel: int)
    | GoldChanged(oldValue: int, newValue: int, change: int)
    | ExpChanged(oldValue: int, newValue: int, change: int)

  datatype Rewards = Rewards(gold: int, exp: int)

  /** `(int)x`: the integer part, rounding toward zero. */
  function TruncToInt(x: real): (n: int)
    ensures x >= 0.0 ==> 0 <= n && n as real <= x < n as real + 1.0
    ensures x <= 0.0 ==> n <= 0 && n as real - 1.0 < x <= n as real
  {
    if x >= 0.0 then x.Floor else -((-x).Floor)
  }

  lemma TruncMonotone(x: real, y: real)
    requires x <= y
    ensures TruncToInt(x) <= TruncToInt(y)
  {
  }

  /** Five per cent more for each day of the current streak. */
  function StreakBonus(consecutiveDays: int): (b: real)
    ensures consecutiveDays >= 0 ==> b >= 1.0
    ensures (b - 1.0) * 20.0 == consecutiveDays as real
  {
    1.0 + consecutiveDays as real * 0.05
  }

  /** `CalculateRewards`: 100 gold and 50 experience per hour, each truncated,
      then scaled by the streak bonus and truncated again. The streak is the
      profile's `ConsecutiveDays` at the time of the call. */
  function CalculateRewards(workSeconds: int, consecutiveDays: int): Rewards
  {
    var hours := workSeconds as real / 3600.0;
    var gold := TruncToInt(hours * 100.0);
    var exp := TruncToInt(hours * 50.0);
    var bonus := StreakBonus(consecutiveDays);
    Rewards(Scale(gold, bonus), Scale(exp, bonus))
  }

  /** `(int)(amount * bonus)`. */
  function Scale(amount: int, bonus: real): int {
    TruncToInt(amount as real * bonus)
  }

  /** A truncation is determined by the unit interval its argument lies in. */
  lemma TruncExact(x: real, n: int)
    requires 0.0 <= x && n as real <= x < n as real + 1.0
    ensures TruncToInt(x) == n
  {
  }

  /** Over the reals the base amounts are integer quotients: 100 gold per hour
      is one per 36 seconds, 50 experience one per 72. */
  lemma BaseExact(workSeconds: int)
    requires workSeconds >= 0
    ensures TruncToInt(workSeconds as real / 3600.0 * 100.0) == workSeconds / 36
    ensures TruncToInt(workSeconds as real / 3600.0 * 50.0) == workSeconds / 72
  {
    TruncExact(workSeconds as real / 3600.0 * 100.0, workSeconds / 36);
    TruncExact(workSeconds as real / 3600.0 * 50.0, workSeconds / 72);
  }

  /** Over the reals the bonus step is integer arithmetic too: five per cent
      per day is a factor (20 + days) / 20. */
  lemma ScaleExact(amount: int, consecutiveDays: int)
    requires amount >= 0 && consecutiveDays >= 0
    ensures Scale(amount, StreakBonus(consecutiveDays)) == amount * (20 + consecutiveDays) / 20
  {
    var m := amount * (20 + consecutiveDays);
    assert amount as real * StreakBonus(consecutiveDays) == m as real / 20.0;
    TruncExact(m as real / 20.0, m / 20);
  }

  /** The rewards in closed form: the hourly amounts, then the streak factor,
      each step rounded down. */
  lemma RewardsClosedForm(workSeconds: int, consecutiveDays: int)
    requires workSeconds >= 0 && consecutiveDays >= 0
    ensures CalculateRewards(workSeconds, consecutiveDays)
         == Rewards(workSeconds / 36 * (20 + consecutiveDays) / 20, workSeconds / 72 * (20 + consecutiveDays) / 20)
  {
    BaseExact(workSeconds);
    ScaleExact(workSeconds / 36, consecutiveDays);
    ScaleExact(workSeconds / 72, consecutiveDays);
  }

  lemma MulMonotone(a1: int, a2: int, b1: int, b2: int)
    requires 0 <= a1 <= a2 && 0 <= b1 <= b2
    ensures 0 <= a1 * b1 <= a2 * b2
  {
    assert a1 * b1 <= a2 * b1;
    assert a2 * b1 <= a2 * b2;
  }

  /** Rewards are never negative, experience never exceeds gold, the streak
      bonus never lowers either base amount, and without a streak they are
      exactly the hourly rates. */
  lemma RewardsBounds(workSeconds: int, consecutiveDays: int)
    requires workSeconds >= 0 && consecutiveDays >= 0
    ensures 0 <= CalculateRewards(workSeconds, consecutiveDays).exp <= CalculateRewards(workSeconds, consecutiveDays).gold
    ensures consecutiveDays == 0 ==> CalculateRewards(workSeconds, consecutiveDays) == Rewards(workSeconds / 36, workSeconds / 72)
    ensures CalculateRewards(workSeconds, consecutiveDays).gold >= workSeconds / 36
    ensures CalculateRewards(workSeconds, consecutiveDays).exp >= workSeconds / 72
  {
    RewardsClosedForm(workSeconds, consecutiveDays);
    MulMonotone(workSeconds / 72, workSeconds / 36, 20 + consecutiveDays, 20 + consecutiveDays);
    MulMonotone(workSeconds / 36, workSeconds / 36, 20, 20 + consecutiveDays);
    MulMonotone(workSeconds / 72, workSeconds / 72, 20, 20 + consecutiveDays);
  }

  /** More work or a longer streak never earns less. */
  lemma RewardsMonotone(s1: int, s2: int, d1: int, d2: int)
    requires 0 <= s1 <= s2 && 0 <= d1 <= d2
    ensures CalculateRewards(s1, d1).gold <= CalculateRewards(s2, d2).gold
    ensures CalculateRewards(s1, d1).exp <= CalculateRewards(s2, d2).exp
  {
    RewardsClosedForm(s1, d1);
    RewardsClosedForm(s2, d2);
    MulMonotone(s1 / 36, s2 / 36, 20 + d1, 20 + d2);
    MulMonotone(s1 / 72, s2 / 72, 20 + d1, 20 + d2);
  }

  /** No work, no reward. */
  lemma NoWorkNoReward(consecutiveDays: int)
    ensures CalculateRewards(0, consecutiveDays) == Rewards(0, 0)
  {
  }

  /** `AddGold` on the profile and its event. */
  function GoldEvent(p: ProfileState, amount: int): EconomyEvent {
    GoldChanged(p.gold, EarnGold(p, amount).gold, amount)
  }

  /** The events `AddExperience` raises: always the experience change (whose
      new value is after any level-up), then the level-up if there was one. */
  function ExpEvents(p: ProfileState, exp: int): (es: seq<EconomyEvent>)
    ensures |es| == if GainExperience(p, exp).ok then 2 else 1
    ensures es[0] == ExpChanged(p.experience, GainExperience(p, exp).profile.experience, exp)
    ensures |es| == 2 ==> es[1] == LevelUp(p.level, p.level + 1)
  {
    var g := GainExperience(p, exp);
    [ExpChanged(p.experience, g.profile.experience, exp)]
      + if g.ok then [LevelUp(p.level, g.profile.level)] else []
  }

  /** The experience event's values differ by the change exactly when no
      level was gained; a level-up also pays the old level's threshold. */
  lemma ExpEventBalance(p: ProfileState, exp: int)
    ensures var e := ExpEvents(p, exp)[0];
            e.newValue == e.oldValue + e.change - (if GainExperience(p, exp).ok then ExperienceToNextLevel(p.level) else 0)
  {
  }

  /** `AddWorkRewards`: rewards computed from the streak before the update,
      then gold, experience, the work total and the streak. */
  function WorkRewards(p: ProfileState, workSeconds: int, today: int): ProfileState
  {
    var r := CalculateRewards(workSeconds, p.consecutiveDays);
    var q := GainExperience(EarnGold(p, r.gold), r.exp).profile;
    UpdateStreak(q.(totalWorkSeconds := q.totalWorkSeconds + workSeconds), today)
  }

  /** The events `AddWorkRewards` raises, in order. */
  function WorkEvents(p: ProfileState, workSeconds: int): seq<EconomyEvent>
  {
    var r := CalculateRewards(workSeconds, p.consecutiveDays);
    [GoldEvent(p, r.gold)] + ExpEvents(EarnGold(p, r.gold), r.exp)
  }

  /** What one work reward does to the profile: the gold and experience of
      the old streak, the seconds added once, the streak advanced once. */
  lemma WorkRewardsEffect(p: ProfileState, workSeconds: int, today: int)
    ensures var r := CalculateRewards(workSeconds, p.consecutiveDays);
            var q := WorkRewards(p, workSeconds, today);
            && q.gold == p.gold + r.gold
            && q.totalWorkSeconds == p.totalWorkSeconds + workSeconds
            && TotalExperience(q) == TotalExperience(p) + r.exp
            && q.level <= p.level + 1
            && q.consecutiveDays == UpdateStreak(p, today).consecutiveDays
            && q.totalWorkDays == UpdateStreak(p, today).totalWorkDays
            && q.maxConsecutiveDays == UpdateStreak(p, today).maxConsecutiveDays
            && q.lastWorkDate == UpdateStreak(p, today).lastWorkDate
            && q.unlockedAchievements == p.unlockedAchievements
            && q.defeatedBosses == p.defeatedBosses
    ensures p.Valid() ==> WorkRewards(p, workSeconds, today).Valid()
  {
  }

  /** A second reward on the same day pays again and adds the seconds again,
      but leaves the streak where the first one put it. */
  lemma SameDayRewards(p: ProfileState, s1: int, s2: int, today: int)
    ensures var q := WorkRewards(WorkRewards(p, s1, today), s2, today);
            && q.totalWorkSeconds == p.totalWorkSeconds + s1 + s2
            && q.consecutiveDays == UpdateStreak(p, today).consecutiveDays
            && q.totalWorkDays == UpdateStreak(p, today).totalWorkDays
  {
    WorkRewardsEffect(p, s1, today);
    WorkRewardsEffect(WorkRewards(p, s1, today), s2, today);
  }

  datatype LevelInfo = LevelInfo(level: int, exp: int, expToNext: int, progress: Option<real>)

  /** `GetLevelInfo`: the level, the experience, the threshold, and the
      percentage of the threshold reached; the percentage is `None` where the
      double division has no finite value (a threshold of zero). */
  function GetLevelInfo(p: ProfileState): (i: LevelInfo)
    ensures i.level == p.level && i.exp == p.experience
    ensures i.expToNext == ExperienceToNextLevel(p.level)
    ensures i.progress.Some? <==> i.expToNext != 0
    ensures i.progress.Some? ==> i.progress.value * i.expToNext as real == i.exp as real * 100.0
  {
    var expToNext := ExperienceToNextLevel(p.level);
    LevelInfo(p.level, p.experience, expToNext,
              if expToNext == 0 then None else Some(p.experience as real / expToNext as real * 100.0))
  }

  lemma PercentBelowFull(e: real, t: real, v: real)
    requires 0.0 <= e < t && v * t == e * 100.0
    ensures 0.0 <= v < 100.0
  {
  }

  /** Gaining experience without levelling up leaves the progress of a valid
      profile below 100 per cent. */
  lemma ProgressBelowFull(p: ProfileState, exp: int)
    requires p.Valid() && p.experience >= 0 && exp >= 0
    requires !GainExperience(p, exp).ok
    ensures var i := GetLevelInfo(GainExperience(p, exp).profile);
            i.progress.Some? && 0.0 <= i.progress.value < 100.0
  {
    var i := GetLevelInfo(GainExperience(p, exp).profile);
    PercentBelowFull(i.exp as real, i.expToNext as real, i.progress.value);
  }

  class EconomyService {
    const profile: AdventurerProfile
    var events: seq<EconomyEvent>

    /** The service over a loaded (or new) profile. */
    constructor (profile: AdventurerProfile)
      ensures this.profile == profile && events == []
    {
      this.profile := profile;
      events := [];
    }

    method AddGold(amount: int)
      modifies this, profile
      ensures profile.State() == EarnGold(old(profile.State()), amount)
      ensures events == old(events) + [GoldEvent(old(profile.State()), amount)]
    {
      var oldGold := profile.gold;
      profile.AddGold(amount);
      events := events + [GoldChanged(oldGold, profile.gold, amount)];
    }

    /** Raises a gold event only when the payment went through. */
    method SpendGold(amount: int) returns (paid: bool)
      modifies this, profile
      ensures Outcome(profile.State(), paid) == PayGold(old(profile.State()), amount)
      ensures events == old(events) + if paid then [GoldChanged(old(profile.gold), old(profile.gold) - amount, -amount)] else []
    {
      var oldGold := profile.gold;
      paid := profile.SpendGold(amount);
      if paid {
        events := events + [GoldChanged(oldGold, profile.gold, -amount)];
      }
    }

    method AddExperience(exp: int)
      modifies this, profile
      ensures profile.State() == GainExperience(old(profile.State()), exp).profile
      ensures events == old(events) + ExpEvents(old(profile.State()), exp)
    {
      var oldExp := profile.experience;
      var oldLevel := profile.level;
      var leveledUp := profile.AddExperience(exp);
      events := events + [ExpChanged(oldExp, profile.experience, exp)];
      if leveledUp {
        events := events + [LevelUp(oldLevel, profile.level)];
      }
    }

    /** `today` is the day number of the `DateTime.Today` reading that the
        streak update makes. */
    method AddWorkRewards(workSeconds: int, today: int)
      modifies this, profile
      ensures profile.State() == WorkRewards(old(profile.State()), workSeconds, today)
      ensures events == old(events) + WorkEvents(old(profile.State()), workSeconds)
    {
      var r := CalculateRewards(workSeconds, profile.consecutiveDays);
      AddGold(r.gold);
      AddExperience(r.exp);
      profile.totalWorkSeconds := profile.totalWorkSeconds + workSeconds;
      profile.UpdateConsecutiveDays(today);
    }
  }
}
