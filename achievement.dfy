/**
 * The achievement record (Models/Achievement.cs) and its two computed
 * getters. `UnlockedAt` is an optional instant; the percentage, a double in
 * the source, is `real`.
 */
module Achievements {
  import opened Wrappers
  import opened Formatting

  /** Kinds of achievement; `WorkHours`, the first, is the enum's default. */
  datatype AchievementType = WorkHours | Consecutive | Project | Earnings | Special

  datatype Achievement = Achievement(
    id: string,
    name: string,
    description: string,
    icon: string,
    kind: AchievementType,
    rewardGold: int,
    rewardExp: int,
    targetValue: int,
    isUnlocked: bool,
    unlockedAt: Option<int>,
    currentProgress: int)

  const DefaultIcon: string := "🏆"

  /** An achievement with every property at its declared default. */
  const Blank: Achievement :=
    Achievement("", "", "", DefaultIcon, WorkHours, 0, 0, 0, false, None, 0)

  /** `ProgressPercentage`: the share of the target reached, in per cent, or 0
      for an achievement without a positive target. */
  function ProgressPercentage(a: Achievement): (p: real)
    ensures a.targetValue <= 0 ==> p == 0.0
    ensures a.targetValue > 0 ==> p * a.targetValue as real == a.currentProgress as real * 100.0
  {
    if a.targetValue > 0 then a.currentProgress as real / a.targetValue as real * 100.0 else 0.0
  }

  /** With a positive target, the percentage reaches 100 exactly when the
      progress reaches the target, and stays within [0, 100] for progress
      within [0, target]. */
  lemma PercentageReachesFull(a: Achievement)
    requires a.targetValue > 0
    ensures ProgressPercentage(a) >= 100.0 <==> a.currentProgress >= a.targetValue
    ensures 0 <= a.currentProgress ==> ProgressPercentage(a) >= 0.0
    ensures a.currentProgress <= a.targetValue ==> ProgressPercentage(a) <= 100.0
  {
    Ratio(ProgressPercentage(a), a.targetValue as real, a.currentProgress as real);
  }

  lemma Ratio(p: real, t: real, c: real)
    requires t > 0.0 && p * t == c * 100.0
    ensures p >= 100.0 <==> c >= t
    ensures c >= 0.0 ==> p >= 0.0
    ensures c <= t ==> p <= 100.0
  {
  }

  /** `ProgressText`: "{CurrentProgress}/{TargetValue}". */
  function ProgressText(a: Achievement): string {
    IntToString(a.currentProgress) + "/" + IntToString(a.targetValue)
  }

  /** Reads a progress text back into (progress, target). */
  function ParseProgressText(text: string): Option<(int, int)> {
    var f := Split(text, '/');
    if |f| == 2 then Some((ParseInt(f[0]), ParseInt(f[1]))) else None
  }

  /** The progress text loses nothing: it reads back as the progress and the
      target, whatever their signs. */
  lemma ProgressTextRoundTrip(a: Achievement)
    ensures ParseProgressText(ProgressText(a)) == Some((a.currentProgress, a.targetValue))
  {
    var p, t := IntToString(a.currentProgress), IntToString(a.targetValue);
    assert ProgressText(a) == p + ['/'] + t;
    SplitAt(p, '/', t);
    SplitFree(t, '/');
    ParseIntToString(a.currentProgress);
    ParseIntToString(a.targetValue);
  }

  /** The defaults: locked, no progress, no target, no reward, the trophy
      icon; such an achievement shows 0 per cent and "0/0". */
  lemma BlankDefaults()
    ensures !Blank.isUnlocked && Blank.unlockedAt.None?
    ensures Blank.currentProgress == 0 && Blank.targetValue == 0
    ensures Blank.rewardGold == 0 && Blank.rewardExp == 0 && Blank.icon == "🏆"
    ensures ProgressPercentage(Blank) == 0.0
    ensures ProgressText(Blank) == "0/0"
  {
  }
}
