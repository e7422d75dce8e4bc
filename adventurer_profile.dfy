/**
 * The adventurer profile (Models/AdventurerProfile.cs): level, experience,
 * gold, work totals, the consecutive-day streak and the two id lists. The
 * profile is a class whose methods update its fields in place; each method is
 * specified by a function on the `ProfileState` snapshot, and the properties
 * of those functions are proved here. Calendar days are day numbers (the
 * `DateTime.Today` reading is a parameter), and `CreatedAt` is an instant.
 */
module Adventurer {
  import opened Wrappers

  datatype ProfileState = ProfileState(
    name: string,
    level: int,
    experience: int,
    gold: int,
    totalWorkSeconds: int,
    totalWorkDays: int,
    consecutiveDays: int,
    maxConsecutiveDays: int,
    unlockedAchievements: seq<string>,
    defeatedBosses: seq<string>,
    createdAt: int,
    lastWorkDate: Option<int>)
  {
    /** What every operation keeps: a level of at least one, a best streak no
        shorter than the current one, and id lists without repeats. */
    predicate Valid() {
      && level >= 1
      && consecutiveDays <= maxConsecutiveDays
      && Distinct(unlockedAchievements)
      && Distinct(defeatedBosses)
    }
  }

  /** The result of an operation that also answers yes or no: levelled up,
      paid, newly recorded. */
  datatype Outcome = Outcome(profile: ProfileState, ok: bool)

  const DefaultName: string := "勇者"

  /** A fresh profile: level 1, nothing earned, no streak, empty lists. */
  function NewProfile(createdAt: int): (p: ProfileState)
    ensures p.Valid()
    ensures p.level == 1 && p.experience == 0 && p.gold == 0 && p.lastWorkDate.None?
  {
    ProfileState(DefaultName, 1, 0, 0, 0, 0, 0, 0, [], [], createdAt, None)
  }

  /** Experience needed to leave `level`. */
  function ExperienceToNextLevel(level: int): int {
    level * 100
  }

  /** All experience ever earned: the thresholds of the levels already left
      (100 + 200 + ... + 100 * (level - 1)) plus the current experience. */
  function TotalExperience(p: ProfileState): int {
    50 * p.level * (p.level - 1) + p.experience
  }

  lemma ThresholdStep(level: int)
    ensures 50 * (level + 1) * level == 50 * level * (level - 1) + ExperienceToNextLevel(level)
  {
    calc {
      50 * (level + 1) * level;
      50 * level * level + 50 * level;
      50 * level * (level - 1) + 100 * level;
    }
  }

  /** `AddExperience`: the experience is added and, when it reaches the
      threshold, the threshold is paid once for one level. */
  function GainExperience(p: ProfileState, exp: int): (r: Outcome)
    ensures r.ok <==> p.experience + exp >= ExperienceToNextLevel(p.level)
    ensures r.profile.level == if r.ok then p.level + 1 else p.level
    ensures !r.ok ==> r.profile.experience < ExperienceToNextLevel(p.level)
    ensures TotalExperience(r.profile) == TotalExperience(p) + exp
    ensures r.profile == p.(level := r.profile.level, experience := r.profile.experience)
    ensures p.Valid() ==> r.profile.Valid()
    ensures p.experience >= 0 && exp >= 0 ==> r.profile.experience >= 0
  {
    var e := p.experience + exp;
    if e >= ExperienceToNextLevel(p.level) then
      ThresholdStep(p.level);
      Outcome(p.(level := p.level + 1, experience := e - ExperienceToNextLevel(p.level)), true)
    else
      Outcome(p.(experience := e), false)
  }

  /** One call levels up at most once: experience worth two levels leaves the
      profile at or above its next threshold. */
  lemma SurplusAfterOneLevel(p: ProfileState, exp: int)
    requires p.level >= 1
    requires p.experience + exp >= ExperienceToNextLevel(p.level) + ExperienceToNextLevel(p.level + 1)
    ensures GainExperience(p, exp).profile.level == p.level + 1
    ensures GainExperience(p, exp).profile.experience >= ExperienceToNextLevel(p.level + 1)
  {
  }

  /** Experience only adds up: two gains in a row account for their sum. */
  lemma GainTwice(p: ProfileState, a: int, b: int)
    ensures TotalExperience(GainExperience(GainExperience(p, a).profile, b).profile)
         == TotalExperience(p) + a + b
    ensures GainExperience(GainExperience(p, a).profile, b).profile.level <= p.level + 2
  {
  }

  /** `AddGold`: the amount is added, whatever its sign. */
  function EarnGold(p: ProfileState, amount: int): (r: ProfileState)
    ensures r.gold - p.gold == amount
    ensures r == p.(gold := r.gold)
    ensures p.Valid() ==> r.Valid()
  {
    p.(gold := p.gold + amount)
  }

  /** `SpendGold`: the amount is taken only when the balance covers it. */
  function PayGold(p: ProfileState, amount: int): (r: Outcome)
    ensures r.ok <==> p.gold >= amount
    ensures r.ok ==> r.profile.gold == p.gold - amount
    ensures r.profile == p.(gold := r.profile.gold)
    ensures !r.ok ==> r.profile == p
    ensures p.gold >= 0 ==> r.profile.gold >= 0
    ensures p.Valid() ==> r.profile.Valid()
  {
    if p.gold >= amount then Outcome(p.(gold := p.gold - amount), true)
    else Outcome(p, false)
  }

  /** Spending gold just earned succeeds and restores the profile. */
  lemma SpendUndoesEarn(p: ProfileState, amount: int)
    requires p.gold >= 0
    ensures PayGold(EarnGold(p, amount), amount) == Outcome(p, true)
  {
  }

  /** The id list holds no id twice. */
  predicate Distinct(xs: seq<string>) {
    forall i, j :: 0 <= i < j < |xs| ==> xs[i] != xs[j]
  }

  /** List insertion that treats the list as a set: `Contains`, then `Add`. */
  function Insert(xs: seq<string>, x: string): (r: seq<string>)
    ensures forall y :: y in r <==> y in xs || y == x
    ensures Distinct(xs) ==> Distinct(r)
    ensures |r| == if x in xs then |xs| else |xs| + 1
    ensures r[..|xs|] == xs
  {
    if x in xs then xs else xs + [x]
  }

  lemma InsertIdempotent(xs: seq<string>, x: string)
    ensures Insert(Insert(xs, x), x) == Insert(xs, x)
  {
  }

  /** `UnlockAchievement`: true exactly when the id is new. */
  function RecordAchievement(p: ProfileState, id: string): (r: Outcome)
    ensures r.ok <==> id !in p.unlockedAchievements
    ensures id in r.profile.unlockedAchievements
    ensures r.profile == p.(unlockedAchievements := Insert(p.unlockedAchievements, id))
    ensures p.Valid() ==> r.profile.Valid()
  {
    Outcome(p.(unlockedAchievements := Insert(p.unlockedAchievements, id)), id !in p.unlockedAchievements)
  }

  /** `DefeatBoss`: true exactly when the boss is new. */
  function RecordBoss(p: ProfileState, id: string): (r: Outcome)
    ensures r.ok <==> id !in p.defeatedBosses
    ensures id in r.profile.defeatedBosses
    ensures r.profile == p.(defeatedBosses := Insert(p.defeatedBosses, id))
    ensures p.Valid() ==> r.profile.Valid()
  {
    Outcome(p.(defeatedBosses := Insert(p.defeatedBosses, id)), id !in p.defeatedBosses)
  }

  /** Recording the same achievement twice pays off only the first time. */
  lemma RecordAchievementOnce(p: ProfileState, id: string)
    ensures !RecordAchievement(RecordAchievement(p, id).profile, id).ok
    ensures RecordAchievement(RecordAchievement(p, id).profile, id).profile == RecordAchievement(p, id).profile
  {
  }

  /** `UpdateConsecutiveDays` on the day number `today`. A second call on the
      same day changes nothing; otherwise the streak starts, continues from
      yesterday or restarts after a gap, today becomes the last work date and
      the best streak is raised to the current one. */
  function UpdateStreak(p: ProfileState, today: int): (r: ProfileState)
    ensures p.lastWorkDate == Some(today) ==> r == p
    ensures p.lastWorkDate != Some(today) ==> r.lastWorkDate == Some(today)
    ensures p.lastWorkDate.None? ==> r.consecutiveDays == 1 && r.totalWorkDays == 1
    ensures p.lastWorkDate == Some(today - 1) ==>
              r.consecutiveDays == p.consecutiveDays + 1 && r.totalWorkDays == p.totalWorkDays + 1
    ensures p.lastWorkDate.Some? && p.lastWorkDate.value != today && p.lastWorkDate.value != today - 1 ==>
              r.consecutiveDays == 1 && r.totalWorkDays == p.totalWorkDays + 1
    ensures r.maxConsecutiveDays >= p.maxConsecutiveDays
    ensures p.lastWorkDate != Some(today) ==> r.maxConsecutiveDays >= r.consecutiveDays
    ensures r == p.(totalWorkDays := r.totalWorkDays, consecutiveDays := r.consecutiveDays,
                    maxConsecutiveDays := r.maxConsecutiveDays, lastWorkDate := r.lastWorkDate)
    ensures p.Valid() ==> r.Valid()
  {
    if p.lastWorkDate == Some(today) then p
    else
      var streak := if p.lastWorkDate.None? then 1
                    else if p.lastWorkDate.value == today - 1 then p.consecutiveDays + 1
                    else 1;
      var days := if p.lastWorkDate.None? then 1 else p.totalWorkDays + 1;
      var best := if streak > p.maxConsecutiveDays then streak else p.maxConsecutiveDays;
      p.(totalWorkDays := days, consecutiveDays := streak, maxConsecutiveDays := best, lastWorkDate := Some(today))
  }

  /** The profile after working on each of the `k` days `first`, `first + 1`,
      ..., `first + k - 1`. */
  function WorkDays(p: ProfileState, first: int, k: nat): ProfileState
  {
    if k == 0 then p else UpdateStreak(WorkDays(p, first, k - 1), first + k - 1)
  }

  /** Working `k` days in a row after a break (or for the first time) gives a
      streak of exactly `k`, and a best streak of at least `k`. */
  lemma {:induction false} StreakOfConsecutiveDays(p: ProfileState, first: int, k: nat)
    requires 1 <= k
    requires p.lastWorkDate.None? || p.lastWorkDate.value < first - 1
    ensures WorkDays(p, first, k).consecutiveDays == k
    ensures WorkDays(p, first, k).maxConsecutiveDays >= k
    ensures WorkDays(p, first, k).lastWorkDate == Some(first + k - 1)
    ensures WorkDays(p, first, k).totalWorkDays == if p.lastWorkDate.None? then k else p.totalWorkDays + k
  {
    if k > 1 {
      StreakOfConsecutiveDays(p, first, k - 1);
    }
  }

  /** Working again on the same day is a no-op. */
  lemma StreakIdempotent(p: ProfileState, today: int)
    ensures UpdateStreak(UpdateStreak(p, today), today) == UpdateStreak(p, today)
  {
  }

  class AdventurerProfile {
    var name: string
    var level: int
    var experience: int
    var gold: int
    var totalWorkSeconds: int
    var totalWorkDays: int
    var consecutiveDays: int
    var maxConsecutiveDays: int
    var unlockedAchievements: seq<string>
    var defeatedBosses: seq<string>
    var createdAt: int
    var lastWorkDate: Option<int>

    /** The profile's fields as one value. */
    function State(): ProfileState
      reads this
    {
      ProfileState(name, level, experience, gold, totalWorkSeconds, totalWorkDays,
                   consecutiveDays, maxConsecutiveDays, unlockedAchievements, defeatedBosses,
                   createdAt, lastWorkDate)
    }

    predicate Valid()
      reads this
    {
      State().Valid()
    }

    /** A new profile; `now` is the clock reading stored as `CreatedAt`. */
    constructor (now: int)
      ensures State() == NewProfile(now)
      ensures Valid()
    {
      name := DefaultName;
      level := 1;
      experience := 0;
      gold := 0;
      totalWorkSeconds := 0;
      totalWorkDays := 0;
      consecutiveDays := 0;
      maxConsecutiveDays := 0;
      unlockedAchievements := [];
      defeatedBosses := [];
      createdAt := now;
      lastWorkDate := None;
    }

    /** The source's loop returns from inside its body, so it runs at most
        once; here that exit is the flag `leveledUp`. */
    method AddExperience(exp: int) returns (leveledUp: bool)
      modifies this
      ensures Outcome(State(), leveledUp) == GainExperience(old(State()), exp)
      ensures old(Valid()) ==> Valid()
    {
      experience := experience + exp;
      leveledUp := false;
      while !leveledUp && experience >= ExperienceToNextLevel(level)
        invariant !leveledUp ==> State() == old(State()).(experience := old(experience) + exp)
        invariant leveledUp ==> State() == GainExperience(old(State()), exp).profile
        invariant leveledUp ==> old(experience) + exp >= ExperienceToNextLevel(old(level))
        decreases if leveledUp then 0 else 1
      {
        experience := experience - ExperienceToNextLevel(level);
        level := level + 1;
        leveledUp := true;
      }
    }

    method AddGold(amount: int)
      modifies this
      ensures State() == EarnGold(old(State()), amount)
      ensures old(Valid()) ==> Valid()
    {
      gold := gold + amount;
    }

    method SpendGold(amount: int) returns (paid: bool)
      modifies this
      ensures Outcome(State(), paid) == PayGold(old(State()), amount)
      ensures old(Valid()) ==> Valid()
    {
      if gold >= amount {
        gold := gold - amount;
        return true;
      }
      return false;
    }

    method UnlockAchievement(achievementId: string) returns (added: bool)
      modifies this
      ensures Outcome(State(), added) == RecordAchievement(old(State()), achievementId)
      ensures old(Valid()) ==> Valid()
    {
      if achievementId !in unlockedAchievements {
        unlockedAchievements := unlockedAchievements + [achievementId];
        return true;
      }
      return false;
    }

    method DefeatBoss(bossId: string) returns (added: bool)
      modifies this
      ensures Outcome(State(), added) == RecordBoss(old(State()), bossId)
      ensures old(Valid()) ==> Valid()
    {
      if bossId !in defeatedBosses {
        defeatedBosses := defeatedBosses + [bossId];
        return true;
      }
      return false;
    }

    /** `today` is the day number of the `DateTime.Today` reading. */
    method UpdateConsecutiveDays(today: int)
      modifies this
      ensures State() == UpdateStreak(old(State()), today)
      ensures old(Valid()) ==> Valid()
    {
      if lastWorkDate.None? {
        consecutiveDays := 1;
        totalWorkDays := 1;
      } else if lastWorkDate.value == today {
        return;
      } else if lastWorkDate.value == today - 1 {
        consecutiveDays := consecutiveDays + 1;
        totalWorkDays := totalWorkDays + 1;
      } else {
        consecutiveDays := 1;
        totalWorkDays := totalWorkDays + 1;
      }
      lastWorkDate := Some(today);
      if consecutiveDays > maxConsecutiveDays {
        maxConsecutiveDays := consecutiveDays;
      }
    }
  }
}
