# WorkHoursTimer core, modelled in Dafny

WorkHoursTimer is a desktop work-hours timer with a small role-playing game on
top of it. The user starts, pauses and stops timed work sessions, files them
under projects and browses daily, weekly, monthly and per-range statistics.
Worked time earns the user's adventurer gold and experience, unlocks
achievements, and drives a pixel-art battle between a hero and a boss on a
184-pixel stage.

This project models the logic behind those features and proves what it
promises. Each source file becomes one Dafny module:

| module | file | models |
|---|---|---|
| `Wrappers` | wrappers.dfy | `Option`, the stand-in for C# nullable values |
| `Formatting` | formatting.dfy | .NET integer division and remainder (truncating toward zero), `{n}` and `{n:D2}` formatting, with parsers for the same text shapes |
| `WorkSessions` | work_session.dfy | the work-session record and its `h:m:s` duration text |
| `Projects` | project.dfy | the project record, `FormattedTotalTime` and `TotalHours` |
| `Timer` | timer_service.dfy | `TimerService`: start, stop, pause, resume and the one-second tick |
| `ProjectRegistry` | project_service.dfy | `ProjectService`: the project list, the current project and its change notifications |
| `Statistics` | statistics.dfy | `StatisticsService`: daily, weekly, monthly, range and comparison statistics |
| `Adventurer` | adventurer_profile.dfy | `AdventurerProfile`: level, experience, gold, the two unlock lists and the streak of consecutive work days |
| `Economy` | economy_service.dfy | `EconomyService`: work rewards, gold and experience changes with their events, the level read-out |
| `Achievements` | achievement.dfy | the achievement record, `ProgressPercentage` and `ProgressText` |
| `AchievementSystem` | achievement_service.dfy | `AchievementService`: the fifteen built-in achievements, loading progress, threshold unlocking and the queries |
| `Battle` | battle_model.dfy | the battle engine as a pure state machine over an `Engine` snapshot, and every property proved about it |
| `BattleSystem` | battle_service.dfy | `BattleSystemService` as a class whose methods update its fields in place |

How the source maps onto the model:

- **Classes stay classes.** Where the source updates an object's fields in
  place, the model is a Dafny class with the same fields.
  - This covers the timer, the project registry, the adventurer profile, the
    economy service, the achievement service and the battle engine.
  - Each method is proved to move a snapshot of the object exactly as a pure
    function of the old snapshot.
  - The properties are lemmas about those functions.
  - The entry points of the timer, the project registry, the adventurer
    profile, the achievement service and the battle engine also keep a class
    invariant `Valid()`. `EconomyService` has none of its own: its state is
    the wrapped profile and an event log.
- **Loops stay loops.** `GetWeekStatistics` and `GetMonthStatistics` are
  methods with the source's loops, proved equal to a specification function.
- **Numbers.** Doubles are `real`. C# `int` arithmetic is unbounded except where
  the model writes out a 32-bit wrap-around (`AchievementSystem.ToInt32`). C#
  `/`, `%` and `(int)` casts truncate toward zero (`Formatting.TruncDiv`,
  `Formatting.TruncMod`, `Economy.TruncToInt`).
- **Dates and times.**
  - A date is a day number counted from 0001-01-01, which was a Monday.
  - An instant is a count of seconds, and its date is the quotient by 86400.
  - `DateTime.Now` and `DateTime.Today` readings are parameters.
- **Random values, ids and callbacks.**
  - `Random` draws are parameters.
  - Guids are given strings, and a new one is required to differ from the known ids.
  - Timers and delayed callbacks become explicit tick and fire methods.
  - The host picks which pending callback or glide fires next.
- **Events** are appended to logs.

The battle engine is a five-state machine: Idle → Approaching → Fighting →
Retreating → Cooldown → Idle.

- Its snapshot `Battle.Engine` holds:
  - the hero and boss positions;
  - a 30-frame parabolic boss jump;
  - the hero's velocity and the round counter;
  - the cached animation ids, the running flag and the battle-timer flag;
  - the pending delayed callbacks (`pending`), queued by `DelayedAction`:
    the idle delay before the next approach (from `Start` and
    `StartIdlePhase`) and the 300 ms knockback and roll of a battle round;
  - the hero glides in flight (`glides`), started by `AnimatePosition`;
  - the event log.
- `Battle.Inv` is the invariant kept by every entry point:
  - positions and jump ends stay on the stage [0, 184];
  - the boss stays between the ground and the jump height;
  - the hero stands still or runs at ±2;
  - a fight has its timer running and at most five rounds fought;
  - every glide is well formed.
- `Stop` does not cancel the glides. `Battle.GlidesOutliveStop` proves that a
  glide in flight still moves the hero and raises an event after `Stop`.

Two behaviours of the code are easy to misread; the model follows the code:

- The boss's jump target is drawn by `Random.Next(50, 180)`, so it is an
  integer in [50, 179], not [50, 180].
- `AddExperience` raises at most one level per call, even when the experience
  would cover several. The experience left over can stay at or above the
  next threshold (`Adventurer.SurplusAfterOneLevel`).

All source paths below are relative to the repository root.

## Model

| member | source | states |
|---|---|---|
| Formatting.TruncDivMod | wpf_app/WorkHoursTimer/Models/WorkSession.cs:52-54 | C# integer division and remainder truncate toward zero: quotient·b + remainder = a, \|remainder\| < b, the remainder takes the sign of a, and both agree with Euclidean division for a ≥ 0 |
| Formatting.NatToString | wpf_app/WorkHoursTimer/Models/WorkSession.cs:55 | a natural number prints as a non-empty string of digits, of one digit exactly when it is below 10 |
| Formatting.ParseNatToString | wpf_app/WorkHoursTimer/Models/WorkSession.cs:55 | reading back the decimal text of a natural number gives the number |
| Formatting.IntToString | wpf_app/WorkHoursTimer/Models/Project.cs:67-69 | `{n}` text is non-empty and holds none of the separators the formats use (no '-' for n ≥ 0) |
| Formatting.Pad2 | wpf_app/WorkHoursTimer/Models/WorkSession.cs:55 | zero padding gives at least two characters, exactly two when the input had at most two |
| Formatting.ParseIntToString | wpf_app/WorkHoursTimer/Models/Project.cs:67-69 | `{n}` text of any integer, negative ones included, reads back as n |
| Formatting.ParseIntToStringD2 | wpf_app/WorkHoursTimer/Models/WorkSession.cs:55 | `{n:D2}` text of any integer reads back as n |
| Formatting.D2TwoDigits | wpf_app/WorkHoursTimer/Models/WorkSession.cs:55 | `{n:D2}` of 0..99 is exactly two digits |
| Formatting.SplitAt | wpf_app/WorkHoursTimer/Models/WorkSession.cs:55 | splitting at the first separator keeps the separator-free field whole |
| Formatting.ClockFieldsExact | wpf_app/WorkHoursTimer/Services/StatisticsService.cs:245 | hours·3600 + minutes·60 + seconds = d, and for d ≥ 0 minutes and seconds lie in [0, 60) |
| Formatting.HoursMinutesRoundTrip | wpf_app/WorkHoursTimer/Services/StatisticsService.cs:331 | the "{h}h {m}m" text reads back as the seconds with the leftover seconds dropped |
| Formatting.HoursMinutesSecondsRoundTrip | wpf_app/WorkHoursTimer/Services/StatisticsService.cs:245 | `FormattedTotal` "{h}h {m}m {s}s" reads back as exactly the seconds: it loses nothing |
| Formatting.Hours | wpf_app/WorkHoursTimer/Services/StatisticsService.cs:244 | `TotalHours` is seconds / 3600 exactly |
| WorkSessions.NewSession | wpf_app/WorkHoursTimer/Models/WorkSession.cs:13-43 | a new session has an empty project name and notes, no end time, zero duration and is inactive |
| WorkSessions.FormattedDurationRoundTrip | wpf_app/WorkHoursTimer/Models/WorkSession.cs:48-57 | the "hh:mm:ss" text of any duration reads back as that duration |
| WorkSessions.FormattedDurationShape | wpf_app/WorkHoursTimer/Models/WorkSession.cs:52-55 | for d ≥ 0 the text is exactly h, m and s of d's clock fields, each D2-padded and joined by ':', with h ≥ 0, m, s in [0, 60) and h·3600 + m·60 + s = d; minutes and seconds are exactly two digits each |
| WorkSessions.FormattedDurationZero | wpf_app/WorkHoursTimer/Models/WorkSession.cs:55 | zero formats as "00:00:00" |
| Projects.NewProject | wpf_app/WorkHoursTimer/Models/Project.cs:15-57 | a new project is active with empty name and description, color "#FFD700", 0 seconds and 0 sessions |
| Projects.TotalHours | wpf_app/WorkHoursTimer/Models/Project.cs:77 | `TotalHours` · 3600 = `TotalSeconds` |
| Projects.FormattedTotalTimeRoundTrip | wpf_app/WorkHoursTimer/Models/Project.cs:63-71 | "{h}h {m}m" reads back as the total minus the leftover seconds; minutes < 60 and only the leftover seconds are dropped for totals ≥ 0 |
| Timer.SessionProjectName | wpf_app/WorkHoursTimer/Services/TimerService.cs:48-51 | the requested name unless missing or empty, else the current project's name, else "默认项目" |
| Timer.TimerService.constructor | wpf_app/WorkHoursTimer/Services/TimerService.cs:33-35 | no timer, no session, nothing sent |
| Timer.TimerService.Start | wpf_app/WorkHoursTimer/Services/TimerService.cs:40-74 | a running timer is stopped first (TIMER_STOPPED, then TIMER_STARTED); a paused one is replaced without TIMER_STOPPED; the new session is active with duration 0 and the timer runs |
| Timer.TimerService.Stop | wpf_app/WorkHoursTimer/Services/TimerService.cs:79-106 | the timer is discarded so `IsRunning` is false; with no session nothing is sent and null is returned; otherwise the session is closed at `now`, TIMER_STOPPED is sent, it is returned and cleared |
| Timer.TimerService.Pause | wpf_app/WorkHoursTimer/Services/TimerService.cs:111-118 | only an enabled timer is disabled, with TIMER_PAUSED; otherwise nothing changes |
| Timer.TimerService.Resume | wpf_app/WorkHoursTimer/Services/TimerService.cs:123-130 | only a disabled timer with a session is re-enabled, with TIMER_RESUMED; otherwise nothing changes |
| Timer.TimerService.Tick | wpf_app/WorkHoursTimer/Services/TimerService.cs:132-152 | a firing timer adds exactly one second to the session and publishes the new value and its text; a stopped one changes nothing |
| ProjectRegistry.IndexOfId | wpf_app/WorkHoursTimer/Services/ProjectService.cs:89-93 | finds an index holding the id, and fails exactly when no project has it |
| ProjectRegistry.FindById | wpf_app/WorkHoursTimer/Services/ProjectService.cs:89-93 | finds a listed project with the id exactly when one exists |
| ProjectRegistry.IndexOfOther | wpf_app/WorkHoursTimer/Services/ProjectService.cs:164-165 | the first project with a different id, or none when all share it |
| ProjectRegistry.OtherProjectExists | wpf_app/WorkHoursTimer/Services/ProjectService.cs:153-165 | with distinct ids and more than one project, another project always exists |
| ProjectRegistry.ActiveProjects | wpf_app/WorkHoursTimer/Services/ProjectService.cs:79-84 | exactly the active projects of the list |
| ProjectRegistry.ActiveProjectsAppend | wpf_app/WorkHoursTimer/Services/ProjectService.cs:79-84 | the filter keeps list order: it distributes over concatenation |
| ProjectRegistry.ApplyUpdate | wpf_app/WorkHoursTimer/Services/ProjectService.cs:132-137 | each field supplied is overwritten and each missing one kept; id, creation time and stats never change |
| ProjectRegistry.RemoveAtExactly | wpf_app/WorkHoursTimer/Services/ProjectService.cs:172 | removing the project at i leaves exactly the projects with another id, still distinct |
| ProjectRegistry.Follow | wpf_app/WorkHoursTimer/Services/ProjectService.cs:24 | the current project, held by reference in the source, sees a change to the listed project with its id and no other |
| ProjectRegistry.SelectCurrent | wpf_app/WorkHoursTimer/Services/ProjectService.cs:54-64 | the stored current id is used when it names a project, else the first project |
| ProjectRegistry.ProjectService.constructor | wpf_app/WorkHoursTimer/Services/ProjectService.cs:35-66 | an empty list gets the default project; the current project is a listed one whose id is stored as the current id |
| ProjectRegistry.ProjectService.GetActiveProjects | wpf_app/WorkHoursTimer/Services/ProjectService.cs:79-84 | a project is returned exactly when it is listed and active |
| ProjectRegistry.ProjectService.GetProjectById | wpf_app/WorkHoursTimer/Services/ProjectService.cs:89-93 | a listed project with the id, or null exactly when none has it |
| ProjectRegistry.ProjectService.CreateProject | wpf_app/WorkHoursTimer/Services/ProjectService.cs:98-120 | appends one new active project with the given fields and zero stats, returns it, leaves the others and the current project alone and notifies Created |
| ProjectRegistry.ProjectService.UpdateProject | wpf_app/WorkHoursTimer/Services/ProjectService.cs:125-145 | false and no change for an unknown id; otherwise only the supplied fields change, the current project follows, Updated is notified |
| ProjectRegistry.ProjectService.SwitchProject | wpf_app/WorkHoursTimer/Services/ProjectService.cs:188-205 | succeeds exactly for a listed active project, then the current project and current id both refer to it; otherwise nothing changes |
| ProjectRegistry.ProjectService.DeleteProject | wpf_app/WorkHoursTimer/Services/ProjectService.cs:150-183 | false and no change for an unknown id or a last project; otherwise exactly that project is removed, after a switch to the first other project if it was current (which fails and leaves the removed project current when that one is inactive) |
| ProjectRegistry.ProjectService.UpdateProjectStats | wpf_app/WorkHoursTimer/Services/ProjectService.cs:210-218 | adds the duration to the project's seconds and one to its sessions; an unknown id changes nothing |
| Statistics.DayOfWeek | wpf_app/WorkHoursTimer/Services/StatisticsService.cs:65-66 | a day of the week in 0..6, Sunday being 0 |
| Statistics.WhereMember | wpf_app/WorkHoursTimer/Services/StatisticsService.cs:35 | a session survives a filter exactly when it is listed and passes it |
| Statistics.WhereCommute | wpf_app/WorkHoursTimer/Services/StatisticsService.cs:81 | two filters give the same list in either order |
| Statistics.WhereSplit | wpf_app/WorkHoursTimer/Services/StatisticsService.cs:79-91 | a filter that is the disjoint union of two others sums and counts as their sum |
| Statistics.DayTotalsSum | wpf_app/WorkHoursTimer/Services/StatisticsService.cs:83-91 | the totals of consecutive days add up to the total of the span |
| Statistics.NamesSpec | wpf_app/WorkHoursTimer/Services/StatisticsService.cs:40 | the grouping keys are distinct and are exactly the project names present |
| Statistics.GroupIsWhere | wpf_app/WorkHoursTimer/Services/StatisticsService.cs:41-46 | a group's total and count are the sum and count of the sessions with its name |
| Statistics.GroupsSum | wpf_app/WorkHoursTimer/Services/StatisticsService.cs:39-46 | the groups' totals and counts add up to the totals and counts of their sessions |
| Statistics.InsertByTotalSorted | wpf_app/WorkHoursTimer/Services/StatisticsService.cs:47 | inserting into a list sorted by total, non-increasing, keeps it sorted |
| Statistics.OrderByTotalDescPerm | wpf_app/WorkHoursTimer/Services/StatisticsService.cs:47 | `OrderByDescending` is a permutation of its input |
| Statistics.OrderByTotalDescFacts | wpf_app/WorkHoursTimer/Services/StatisticsService.cs:47 | its result is sorted by total, non-increasing, and keeps the totals' and counts' sums |
| Statistics.OrderByTotalDescDistinct | wpf_app/WorkHoursTimer/Services/StatisticsService.cs:47 | sorting keeps project names distinct |
| Statistics.ProjectTotalsBreakdown | wpf_app/WorkHoursTimer/Services/StatisticsService.cs:39-47 | the per-project list has one entry per distinct name, equal to that name's group, sorted, summing to the sessions' total and count |
| Statistics.GetStatisticsForDate | wpf_app/WorkHoursTimer/Services/StatisticsService.cs:32-57 | a day's total and count are the sum and count of the sessions starting that day |
| Statistics.DailyStatisticsBreakdown | wpf_app/WorkHoursTimer/Services/StatisticsService.cs:39-56 | a day's per-project list is its breakdown, summing to its total and count |
| Statistics.DaysFromAt | wpf_app/WorkHoursTimer/Services/StatisticsService.cs:83-89 | entry i of the daily list is the statistics of day lo + i |
| Statistics.DaysFromSum | wpf_app/WorkHoursTimer/Services/StatisticsService.cs:83-91 | the daily totals add up to the span's total |
| Statistics.WeekDays | wpf_app/WorkHoursTimer/Services/StatisticsService.cs:77-115 | a week has exactly 7 daily statistics for start … start+6, ends at start+6, and its total and count are those of its sessions and the days' sum |
| Statistics.WeekProjects | wpf_app/WorkHoursTimer/Services/StatisticsService.cs:92-103 | the weekly per-project list is the week's breakdown and each entry has 7 daily amounts, 0 on days without its sessions, summing to its total |
| Statistics.GetWeekStatistics | wpf_app/WorkHoursTimer/Services/StatisticsService.cs:77-115 | the loop over seven days computes exactly the week's statistics |
| Statistics.StartOfWeek | wpf_app/WorkHoursTimer/Services/StatisticsService.cs:62-72 | the Monday on or before today, so today is within its seven days; on a Sunday six days back |
| Statistics.GetThisWeekStatistics | wpf_app/WorkHoursTimer/Services/StatisticsService.cs:62-72 | the statistics of the Monday-started week that holds today |
| Statistics.DaysInMonth | wpf_app/WorkHoursTimer/Services/StatisticsService.cs:132 | a month has 28 to 31 days |
| Statistics.ChunksLength | wpf_app/WorkHoursTimer/Services/StatisticsService.cs:150-172 | a span of n days walks in ⌈n/7⌉ steps |
| Statistics.ChunksAt | wpf_app/WorkHoursTimer/Services/StatisticsService.cs:155-163 | chunk k totals the sessions from day lo+7k up to 7 days later, cut at the span's end |
| Statistics.ChunksSum | wpf_app/WorkHoursTimer/Services/StatisticsService.cs:150-164 | the chunks add up to the span's total |
| Statistics.MonthProjects | wpf_app/WorkHoursTimer/Services/StatisticsService.cs:129-147 | the month's sessions are those dated in it, and its per-project list is their breakdown |
| Statistics.MonthChunks | wpf_app/WorkHoursTimer/Services/StatisticsService.cs:150-172 | the weekly breakdown has ⌈days/7⌉, so four or five, chunks that sum to the month's total |
| Statistics.GetMonthStatistics | wpf_app/WorkHoursTimer/Services/StatisticsService.cs:129-175 | the 7-day loop from the first of the month computes exactly the month's statistics |
| Statistics.GetRangeStatistics | wpf_app/WorkHoursTimer/Services/StatisticsService.cs:180-206 | total and count of the sessions dated from start to end, both included |
| Statistics.RangeBreakdown | wpf_app/WorkHoursTimer/Services/StatisticsService.cs:186-195 | the range's per-project list is its breakdown and sums to its total |
| Statistics.RangeSplit | wpf_app/WorkHoursTimer/Services/StatisticsService.cs:183 | a range cut after any day adds up to its two parts |
| Statistics.RangeOfOneDay | wpf_app/WorkHoursTimer/Services/StatisticsService.cs:32-57 | a one-day range reports what that day's statistics report |
| Statistics.EmptyRange | wpf_app/WorkHoursTimer/Services/StatisticsService.cs:183 | a range ending before it starts is empty |
| Statistics.Compare | wpf_app/WorkHoursTimer/Services/StatisticsService.cs:218-227 | the average per session is the truncated quotient, and total hours · 3600 = total seconds |
| Statistics.ProjectComparisonFacts | wpf_app/WorkHoursTimer/Services/StatisticsService.cs:211-229 | one entry per project of the range, in the range list's order (non-increasing totals), each with at least one session and its truncated average |
| Adventurer.NewProfile | wpf_app/WorkHoursTimer/Models/AdventurerProfile.cs:16-88 | a new profile is level 1 with no experience, gold or work date |
| Adventurer.ThresholdStep | wpf_app/WorkHoursTimer/Models/AdventurerProfile.cs:34 | the thresholds `Level·100` add up to 50·level·(level−1) experience below the level |
| Adventurer.GainExperience | wpf_app/WorkHoursTimer/Models/AdventurerProfile.cs:93-106 | levels up (subtracting the threshold) exactly when experience + exp reaches Level·100, at most one level; otherwise the experience stays below the threshold |
| Adventurer.SurplusAfterOneLevel | wpf_app/WorkHoursTimer/Models/AdventurerProfile.cs:98-103 | enough experience for two levels still raises one, leaving experience at or above the next threshold |
| Adventurer.GainTwice | wpf_app/WorkHoursTimer/Models/AdventurerProfile.cs:93-106 | two gains add to the lifetime experience and raise at most two levels |
| Adventurer.EarnGold | wpf_app/WorkHoursTimer/Models/AdventurerProfile.cs:111-114 | adds exactly the amount, nothing else changes |
| Adventurer.PayGold | wpf_app/WorkHoursTimer/Models/AdventurerProfile.cs:119-127 | succeeds exactly when gold ≥ amount, then gold drops by the amount; otherwise the profile is unchanged |
| Adventurer.SpendUndoesEarn | wpf_app/WorkHoursTimer/Models/AdventurerProfile.cs:111-127 | spending what was just earned succeeds and restores the profile |
| Adventurer.Insert | wpf_app/WorkHoursTimer/Models/AdventurerProfile.cs:132-153 | adds the id only when absent: members are the old ones plus it, no duplicates, order kept |
| Adventurer.InsertIdempotent | wpf_app/WorkHoursTimer/Models/AdventurerProfile.cs:134-139 | inserting twice is inserting once |
| Adventurer.RecordAchievement | wpf_app/WorkHoursTimer/Models/AdventurerProfile.cs:132-140 | true exactly when the id was absent; afterwards it is present once |
| Adventurer.RecordBoss | wpf_app/WorkHoursTimer/Models/AdventurerProfile.cs:145-153 | true exactly when the boss id was absent; afterwards it is present once |
| Adventurer.RecordAchievementOnce | wpf_app/WorkHoursTimer/Models/AdventurerProfile.cs:132-140 | a second unlock of the same id reports false and changes nothing |
| Adventurer.UpdateStreak | wpf_app/WorkHoursTimer/Models/AdventurerProfile.cs:158-193 | first work: streak 1, days 1; same day: no change; next day: streak and days +1; a gap: streak 1, days +1; afterwards the maximum streak ≥ the streak and the last date is today |
| Adventurer.StreakOfConsecutiveDays | wpf_app/WorkHoursTimer/Models/AdventurerProfile.cs:158-193 | k consecutive work days after a gap make a streak of exactly k, with maximum ≥ k and k more work days |
| Adventurer.StreakIdempotent | wpf_app/WorkHoursTimer/Models/AdventurerProfile.cs:168-172 | a second update on the same day changes nothing |
| Adventurer.AdventurerProfile.constructor | wpf_app/WorkHoursTimer/Models/AdventurerProfile.cs:16-88 | the fields start at their declared defaults |
| Adventurer.AdventurerProfile.AddExperience | wpf_app/WorkHoursTimer/Models/AdventurerProfile.cs:93-106 | the while loop that returns from its body does what `GainExperience` says, and keeps the profile valid |
| Adventurer.AdventurerProfile.AddGold | wpf_app/WorkHoursTimer/Models/AdventurerProfile.cs:111-114 | the fields change as `EarnGold` says |
| Adventurer.AdventurerProfile.SpendGold | wpf_app/WorkHoursTimer/Models/AdventurerProfile.cs:119-127 | the fields and result are those of `PayGold` |
| Adventurer.AdventurerProfile.UnlockAchievement | wpf_app/WorkHoursTimer/Models/AdventurerProfile.cs:132-140 | the list and result are those of `RecordAchievement` |
| Adventurer.AdventurerProfile.DefeatBoss | wpf_app/WorkHoursTimer/Models/AdventurerProfile.cs:145-153 | the list and result are those of `RecordBoss` |
| Adventurer.AdventurerProfile.UpdateConsecutiveDays | wpf_app/WorkHoursTimer/Models/AdventurerProfile.cs:158-193 | the streak fields change as `UpdateStreak` says |
| Economy.TruncToInt | wpf_app/WorkHoursTimer/Services/EconomyService.cs:47-53 | `(int)` cuts toward zero: the integer lies within one of x on the side of zero |
| Economy.TruncMonotone | wpf_app/WorkHoursTimer/Services/EconomyService.cs:47-53 | the cast never decreases a larger value |
| Economy.StreakBonus | wpf_app/WorkHoursTimer/Services/EconomyService.cs:51 | the bonus factor is 1 + 0.05·days, so ≥ 1 for a non-negative streak |
| Economy.BaseExact | wpf_app/WorkHoursTimer/Services/EconomyService.cs:46-48 | over the reals the hourly gold and experience are workSeconds/36 and workSeconds/72 |
| Economy.RewardsClosedForm | wpf_app/WorkHoursTimer/Services/EconomyService.cs:43-56 | over the reals the rewards are the hourly amounts scaled by (20 + days)/20, truncated |
| Economy.RewardsBounds | wpf_app/WorkHoursTimer/Services/EconomyService.cs:43-56 | rewards are non-negative for non-negative seconds and streak, experience ≤ gold, the streak bonus never lowers the base gold (seconds / 36) nor the base experience (seconds / 72), and with no streak the rewards are exactly those bases |
| Economy.RewardsMonotone | wpf_app/WorkHoursTimer/Services/EconomyService.cs:43-56 | more work or a longer streak never earns less |
| Economy.NoWorkNoReward | wpf_app/WorkHoursTimer/Services/EconomyService.cs:43-56 | no work, no reward |
| Economy.ExpEvents | wpf_app/WorkHoursTimer/Services/EconomyService.cs:123-147 | ExpChanged always, then LevelUp(level, level+1) exactly when the profile reports a level-up |
| Economy.ExpEventBalance | wpf_app/WorkHoursTimer/Services/EconomyService.cs:127-141 | ExpChanged's new value is the old value plus the change, less the threshold Level·100 when a level was gained |
| Economy.WorkRewardsEffect | wpf_app/WorkHoursTimer/Services/EconomyService.cs:61-79 | rewards use the streak before the update; gold and lifetime experience grow by them, the seconds are added once, the streak fields are `UpdateStreak`'s |
| Economy.SameDayRewards | wpf_app/WorkHoursTimer/Services/EconomyService.cs:61-79 | a second reward on the same day adds its seconds but leaves the streak as the first one set it |
| Economy.GetLevelInfo | wpf_app/WorkHoursTimer/Services/EconomyService.cs:152-160 | level, experience and expToNext = Level·100, and progress = exp/expToNext·100 |
| Economy.ProgressBelowFull | wpf_app/WorkHoursTimer/Services/EconomyService.cs:152-160 | after a gain that does not level up, the progress of a valid profile lies in [0, 100) |
| Economy.EconomyService.constructor | wpf_app/WorkHoursTimer/Services/EconomyService.cs:34-38 | holds the profile and has raised nothing |
| Economy.EconomyService.AddGold | wpf_app/WorkHoursTimer/Services/EconomyService.cs:84-97 | gold grows by the amount; GoldChanged(old, old + amount, amount) is raised |
| Economy.EconomyService.SpendGold | wpf_app/WorkHoursTimer/Services/EconomyService.cs:102-118 | insufficient gold: false and no event; otherwise GoldChanged(old, old − amount, −amount) |
| Economy.EconomyService.AddExperience | wpf_app/WorkHoursTimer/Services/EconomyService.cs:123-147 | the profile gains the experience and the events are `ExpEvents` |
| Economy.EconomyService.AddWorkRewards | wpf_app/WorkHoursTimer/Services/EconomyService.cs:61-79 | the profile becomes `WorkRewards` and the events come in the source's order |
| Achievements.ProgressPercentage | wpf_app/WorkHoursTimer/Models/Achievement.cs:112 | 0 when the target is ≤ 0, else progress / target · 100 |
| Achievements.PercentageReachesFull | wpf_app/WorkHoursTimer/Models/Achievement.cs:112 | for a positive target the percentage reaches 100 exactly when the progress reaches the target, and lies in [0, 100] below it |
| Achievements.ProgressTextRoundTrip | wpf_app/WorkHoursTimer/Models/Achievement.cs:118 | "{progress}/{target}" reads back as both numbers |
| Achievements.BlankDefaults | wpf_app/WorkHoursTimer/Models/Achievement.cs:46-106 | a fresh achievement is locked with progress, target and rewards 0 and icon "🏆" |
| AchievementSystem.InitialFacts | wpf_app/WorkHoursTimer/Services/AchievementService.cs:35-212 | there are 15 built-in achievements, all locked with progress 0 |
| AchievementSystem.InitialIdsDistinct | wpf_app/WorkHoursTimer/Services/AchievementService.cs:35-212 | their ids are distinct |
| AchievementSystem.ToInt32 | wpf_app/WorkHoursTimer/Services/AchievementService.cs:230 | the `(int)` cast of the long seconds total wraps modulo 2^32 into the 32-bit range and keeps values already in it |
| AchievementSystem.Load | wpf_app/WorkHoursTimer/Services/AchievementService.cs:217-242 | each achievement is reloaded on its own |
| AchievementSystem.LoadKeepsDefinitions | wpf_app/WorkHoursTimer/Services/AchievementService.cs:217-242 | loading sets the lock flag from the profile's list and the progress from the kind's counter (seconds, streak, gold), leaving Project and Special progress and every definition field alone |
| AchievementSystem.Checked | wpf_app/WorkHoursTimer/Services/AchievementService.cs:249-257 | the reached achievements, and only those, are granted |
| AchievementSystem.CheckedUnlocks | wpf_app/WorkHoursTimer/Services/AchievementService.cs:247-258 | after the loop an achievement is unlocked exactly when it was or its progress reached its target, with definition and progress kept |
| AchievementSystem.PayoutPaysDue | wpf_app/WorkHoursTimer/Services/AchievementService.cs:263-281 | every reached achievement is recorded and paid exactly its gold and experience, nothing else in the profile changes, and validity is kept |
| AchievementSystem.NoSecondPayment | wpf_app/WorkHoursTimer/Services/AchievementService.cs:224-253 | every achievement unlocked by a check is in the profile's list afterwards, so the next check loads it unlocked and does not pay it again |
| AchievementSystem.PayoutStep | wpf_app/WorkHoursTimer/Services/AchievementService.cs:251-256 | one more achievement in the loop pays, raises and reports exactly its own share |
| AchievementSystem.CheckedTracks | wpf_app/WorkHoursTimer/Services/AchievementService.cs:247-258 | unlocking keeps the built-in definitions |
| AchievementSystem.UnlockedLockedPartition | wpf_app/WorkHoursTimer/Services/AchievementService.cs:286-297 | the unlocked and locked queries hold only unlocked, resp. locked, entries and together are a permutation of the list |
| AchievementSystem.UnlockedCount | wpf_app/WorkHoursTimer/Services/AchievementService.cs:302-309 | unlocked ≤ total |
| AchievementSystem.GetStatistics | wpf_app/WorkHoursTimer/Services/AchievementService.cs:302-309 | total is the list length, unlocked the unlocked query's length, and a percentage exists exactly for a non-empty list |
| AchievementSystem.StatisticsPercentage | wpf_app/WorkHoursTimer/Services/AchievementService.cs:302-309 | 0 ≤ unlocked ≤ total, and the percentage is unlocked/total·100 in [0, 100] |
| AchievementSystem.SpecialNeverReached | wpf_app/WorkHoursTimer/Services/AchievementService.cs:227-240 | the Special achievements, whose progress nothing loads, are never reached by a check |
| AchievementSystem.AchievementService.constructor | wpf_app/WorkHoursTimer/Services/AchievementService.cs:26-30 | the built-in list with progress loaded from the profile, nothing unlocked by the service yet |
| AchievementSystem.AchievementService.LoadProgress | wpf_app/WorkHoursTimer/Services/AchievementService.cs:217-242 | the loop reloads every achievement from the profile |
| AchievementSystem.AchievementService.UnlockAchievement | wpf_app/WorkHoursTimer/Services/AchievementService.cs:263-281 | marks the achievement unlocked at `now`, records its id, pays exactly its gold and experience and raises AchievementUnlocked |
| AchievementSystem.AchievementService.CheckAchievements | wpf_app/WorkHoursTimer/Services/AchievementService.cs:247-258 | progress is loaded once, before the loop; then every reached achievement is granted and paid, so rewards paid in the loop cannot trigger further unlocks in the same call |
| AchievementSystem.AchievementService.UnlockReached | wpf_app/WorkHoursTimer/Services/AchievementService.cs:251-257 | the unlocking loop grants and pays exactly the reached entries of the loaded list |
| Battle.Clamp | wpf_app/WorkHoursTimer/Services/BattleSystemService.cs:182-183 | the result is on the stage [0, 184], equal to x when x is, else the nearer edge |
| Battle.LerpBetween | wpf_app/WorkHoursTimer/Services/BattleSystemService.cs:600-602 | interpolation stays between its ends and hits them at 0 and 1 |
| Battle.JumpArcEnds | wpf_app/WorkHoursTimer/Services/BattleSystemService.cs:232-234 | the arc height is 0 at p = 0 and p = 1 and 40 at p = 0.5 |
| Battle.JumpArcBounds | wpf_app/WorkHoursTimer/Services/BattleSystemService.cs:232-234 | for p in [0, 1] the height lies in [0, 40] |
| Battle.JumpTrajectory | wpf_app/WorkHoursTimer/Services/BattleSystemService.cs:209-237 | at frame k < 30 the boss is at start + (target − start)·k/30 and the arc height; after frame 30 it has landed exactly on the target at height 0, counter reset, animation Idle |
| Battle.LandingEndsArc | wpf_app/WorkHoursTimer/Services/BattleSystemService.cs:214-224 | the line reaches the target and the arc the ground exactly at full progress |
| Battle.AnimationDedup | wpf_app/WorkHoursTimer/Services/BattleSystemService.cs:681-697 | an animation event fires exactly when the id differs from the cached one, the cache is then updated, and asking again raises nothing |
| Battle.StateChangeDedup | wpf_app/WorkHoursTimer/Services/BattleSystemService.cs:650-657 | StateChanged fires exactly on an actual change of state |
| Battle.ResetEffect | wpf_app/WorkHoursTimer/Services/BattleSystemService.cs:153-168 | Reset sets Idle directly without StateChanged, puts both on their start points, raises both positions, the idle animations only where the caches differ, and both facings |
| Battle.StartEffect | wpf_app/WorkHoursTimer/Services/BattleSystemService.cs:108-132 | a no-op while running; otherwise running, Idle, hero at 0, boss at 184, velocity 0 and one idle delay scheduled |
| Battle.StopEffect | wpf_app/WorkHoursTimer/Services/BattleSystemService.cs:137-148 | a no-op while stopped; otherwise stops the engine and the battle timer, forces Idle, zeroes the velocity; glides and callbacks survive |
| Battle.StoppedTickIsNoOp | wpf_app/WorkHoursTimer/Services/BattleSystemService.cs:179 | a movement tick does nothing while stopped |
| Battle.GlidesOutliveStop | wpf_app/WorkHoursTimer/Services/BattleSystemService.cs:597-611 | Stop keeps every glide, and a glide's next tick still raises an event |
| Battle.ApproachCallbackGuard | wpf_app/WorkHoursTimer/Services/BattleSystemService.cs:124-131 | the idle delay starts an approach only if the engine still runs and idles; otherwise it only leaves the queue |
| Battle.ApproachStart | wpf_app/WorkHoursTimer/Services/BattleSystemService.cs:256-265 | an approach enters Approaching (StateChanged only on a change) and jumps the boss from where it stands to the drawn target in [50, 179] |
| Battle.ApproachChase | wpf_app/WorkHoursTimer/Services/BattleSystemService.cs:270-300 | farther than 50 apart the hero runs at ±2 toward the boss; Run and the facing are raised only when the velocity changes by more than 0.01; a landed boss jumps again on a draw below 0.2 |
| Battle.PursueChase | wpf_app/WorkHoursTimer/Services/BattleSystemService.cs:284-300 | the hero's half of the chase: the velocity toward the boss, the events only on a change of more than 0.01, the boss untouched |
| Battle.ApproachEngage | wpf_app/WorkHoursTimer/Services/BattleSystemService.cs:301-335 | within 50 the hero stops and the fight starts at round 0, jump cancelled, boss on the ground, battle timer on |
| Battle.BattleTickEffect | wpf_app/WorkHoursTimer/Services/BattleSystemService.cs:340-360 | outside a fight a tick only stops the timer; in a fight it advances the round, and past the fifth stops the timer and starts the retreat to 184 |
| Battle.FightRounds | wpf_app/WorkHoursTimer/Services/BattleSystemService.cs:340-360 | from any round, ticks fight one round each while at most five, and the tick after the fifth ends the fight with the timer stopped |
| Battle.CombatRound | wpf_app/WorkHoursTimer/Services/BattleSystemService.cs:365-424 | below 0.7 the hero attacks (Attack1 below 0.6, else Attack2) and the boss is hurt; otherwise the boss charges and the hero blocks (below 0.5, knockback deferred) or rolls (roll deferred); nothing moves |
| Battle.DeferredRecheck | wpf_app/WorkHoursTimer/Services/BattleSystemService.cs:429-498 | a deferred knockback or roll acts only while still Fighting: the hero glides back 30 in 20 steps or 50 in 15, not past 0, then runs back; otherwise it only leaves the queue |
| Battle.RetreatCooldownIdle | wpf_app/WorkHoursTimer/Services/BattleSystemService.cs:507-582 | the retreat jumps the boss to 184; once it lands the cooldown glides the hero to 0 in 30 steps; its end re-enters Idle and schedules the next approach |
| Battle.GlideEnds | wpf_app/WorkHoursTimer/Services/BattleSystemService.cs:599-608 | a glide starts at its start and its last step is exactly its target |
| Battle.GlideStep | wpf_app/WorkHoursTimer/Services/BattleSystemService.cs:597-611 | one tick before the last step sets the next interpolated x; the last sets the target, stops the glide and runs its completion |
| Battle.GlideTrajectory | wpf_app/WorkHoursTimer/Services/BattleSystemService.cs:591-612 | a glide of n steps sets start + (target − start)·k/n at step k; at step n the hero is exactly on the target and the completion has run once |
| Battle.InitialInv | wpf_app/WorkHoursTimer/Services/BattleSystemService.cs:55-72 | the constructed engine satisfies the invariant |
| Battle.StartInv | wpf_app/WorkHoursTimer/Services/BattleSystemService.cs:108-132 | Start keeps the invariant |
| Battle.StopInv | wpf_app/WorkHoursTimer/Services/BattleSystemService.cs:137-148 | Stop keeps the invariant |
| Battle.ResetInv | wpf_app/WorkHoursTimer/Services/BattleSystemService.cs:153-168 | Reset keeps the invariant |
| Battle.MovementTickInv | wpf_app/WorkHoursTimer/Services/BattleSystemService.cs:177-204 | a movement tick keeps hero, boss and jump on the stage and the rest of the invariant |
| Battle.UpdateBossJumpInv | wpf_app/WorkHoursTimer/Services/BattleSystemService.cs:209-237 | a jump frame keeps the boss on the stage and between ground and jump height |
| Battle.StartBossJumpInv | wpf_app/WorkHoursTimer/Services/BattleSystemService.cs:242-251 | jump targets are clamped onto the stage |
| Battle.UpdateApproachingInv | wpf_app/WorkHoursTimer/Services/BattleSystemService.cs:270-308 | an approach step keeps the invariant, the fight it may start included |
| Battle.BattleTickInv | wpf_app/WorkHoursTimer/Services/BattleSystemService.cs:340-360 | a battle tick keeps at most five rounds per fight and the rest of the invariant |
| Battle.ExecuteRoundInv | wpf_app/WorkHoursTimer/Services/BattleSystemService.cs:365-424 | a round keeps the invariant |
| Battle.GlideTickInv | wpf_app/WorkHoursTimer/Services/BattleSystemService.cs:591-612 | a glide tick keeps the hero on the stage, since glides only interpolate between on-stage ends |
| Battle.FireDeferredInv | wpf_app/WorkHoursTimer/Services/BattleSystemService.cs:429-498 | a deferred callback keeps the invariant; knockback and roll targets are max(0, x − d) |
| Battle.AnimateInv | wpf_app/WorkHoursTimer/Services/BattleSystemService.cs:591-596 | a glide between on-stage ends is well formed |
| BattleSystem.BattleSystemService.constructor | wpf_app/WorkHoursTimer/Services/BattleSystemService.cs:86-101 | the fields hold their initial values and the invariant holds |
| BattleSystem.BattleSystemService.Start | wpf_app/WorkHoursTimer/Services/BattleSystemService.cs:108-132 | the fields change as `Battle.Start` says, keeping the invariant |
| BattleSystem.BattleSystemService.Stop | wpf_app/WorkHoursTimer/Services/BattleSystemService.cs:137-148 | the fields change as `Battle.Stop` says, keeping the invariant |
| BattleSystem.BattleSystemService.Reset | wpf_app/WorkHoursTimer/Services/BattleSystemService.cs:153-168 | the fields change as `Battle.Reset` says, keeping the invariant |
| BattleSystem.BattleSystemService.OnMovementTick | wpf_app/WorkHoursTimer/Services/BattleSystemService.cs:177-204 | the fields change as `Battle.MovementTick` says, keeping the invariant |
| BattleSystem.BattleSystemService.UpdateBossJump | wpf_app/WorkHoursTimer/Services/BattleSystemService.cs:209-237 | the fields change as `Battle.UpdateBossJump` says |
| BattleSystem.BattleSystemService.StartBossJump | wpf_app/WorkHoursTimer/Services/BattleSystemService.cs:242-251 | the fields change as `Battle.StartBossJump` says |
| BattleSystem.BattleSystemService.StartApproachingPhase | wpf_app/WorkHoursTimer/Services/BattleSystemService.cs:256-265 | the fields change as `Battle.StartApproaching` says |
| BattleSystem.BattleSystemService.UpdateApproachingPhase | wpf_app/WorkHoursTimer/Services/BattleSystemService.cs:270-308 | the fields change as `Battle.UpdateApproaching` says |
| BattleSystem.BattleSystemService.BossJumpDraw | wpf_app/WorkHoursTimer/Services/BattleSystemService.cs:272-282 | the boss's half of the approach step, as `Battle.ApproachJump` |
| BattleSystem.BattleSystemService.ChaseBoss | wpf_app/WorkHoursTimer/Services/BattleSystemService.cs:284-307 | the hero's half of the approach step, as `Battle.Pursue` |
| BattleSystem.BattleSystemService.StartFightingPhase | wpf_app/WorkHoursTimer/Services/BattleSystemService.cs:317-335 | the fields change as `Battle.StartFighting` says |
| BattleSystem.BattleSystemService.OnBattleTick | wpf_app/WorkHoursTimer/Services/BattleSystemService.cs:340-360 | the fields change as `Battle.BattleTick` says, keeping the invariant |
| BattleSystem.BattleSystemService.ExecuteBattleRound | wpf_app/WorkHoursTimer/Services/BattleSystemService.cs:365-424 | the fields change as `Battle.ExecuteRound` says |
| BattleSystem.BattleSystemService.PerformKnockback | wpf_app/WorkHoursTimer/Services/BattleSystemService.cs:429-461 | the fields change as `Battle.PerformKnockback` says |
| BattleSystem.BattleSystemService.PerformRoll | wpf_app/WorkHoursTimer/Services/BattleSystemService.cs:466-498 | the fields change as `Battle.PerformRoll` says |
| BattleSystem.BattleSystemService.StartRetreatingPhase | wpf_app/WorkHoursTimer/Services/BattleSystemService.cs:507-519 | the fields change as `Battle.StartRetreating` says |
| BattleSystem.BattleSystemService.UpdateRetreatingPhase | wpf_app/WorkHoursTimer/Services/BattleSystemService.cs:524-532 | the fields change as `Battle.UpdateRetreating` says |
| BattleSystem.BattleSystemService.StartCooldownPhase | wpf_app/WorkHoursTimer/Services/BattleSystemService.cs:537-561 | the fields change as `Battle.StartCooldown` says |
| BattleSystem.BattleSystemService.StartIdlePhase | wpf_app/WorkHoursTimer/Services/BattleSystemService.cs:566-582 | the fields change as `Battle.StartIdle` says |
| BattleSystem.BattleSystemService.AnimatePosition | wpf_app/WorkHoursTimer/Services/BattleSystemService.cs:591-596 | a glide is added, as `Battle.AnimatePosition` says |
| BattleSystem.BattleSystemService.GlideTimerTick | wpf_app/WorkHoursTimer/Services/BattleSystemService.cs:597-611 | one tick of a glide's timer changes the fields as `Battle.GlideTick` says, keeping the invariant |
| BattleSystem.BattleSystemService.OnGlideComplete | wpf_app/WorkHoursTimer/Services/BattleSystemService.cs:607-608 | a glide's completion runs as `Battle.Complete` says |
| BattleSystem.BattleSystemService.RunDelayedAction | wpf_app/WorkHoursTimer/Services/BattleSystemService.cs:617-637 | a delayed callback runs as `Battle.FireDeferred` says, keeping the invariant |
| BattleSystem.BattleSystemService.ChangeState | wpf_app/WorkHoursTimer/Services/BattleSystemService.cs:650-657 | as `Battle.ChangeState`: StateChanged only on a change |
| BattleSystem.BattleSystemService.RaiseHeroPositionChanged | wpf_app/WorkHoursTimer/Services/BattleSystemService.cs:671-674 | the event is raised unconditionally |
| BattleSystem.BattleSystemService.RaiseBossPositionChanged | wpf_app/WorkHoursTimer/Services/BattleSystemService.cs:676-679 | the event is raised unconditionally |
| BattleSystem.BattleSystemService.RaiseHeroAnimationChanged | wpf_app/WorkHoursTimer/Services/BattleSystemService.cs:681-688 | raised only when the id differs from the cache, which is then updated |
| BattleSystem.BattleSystemService.RaiseBossAnimationChanged | wpf_app/WorkHoursTimer/Services/BattleSystemService.cs:690-697 | raised only when the id differs from the cache, which is then updated |
| BattleSystem.BattleSystemService.RaiseHeroFlipChanged | wpf_app/WorkHoursTimer/Services/BattleSystemService.cs:699-702 | the event is raised unconditionally |
| BattleSystem.BattleSystemService.RaiseBossFlipChanged | wpf_app/WorkHoursTimer/Services/BattleSystemService.cs:704-707 | the event is raised unconditionally |

## Left out

- User interface: the WPF windows, dialogs, view models, converters, sprite controls, the tray icon, hotkeys and auto-hide. They are presentation and operating-system integration, with no logic the core relies on.
- Persistence: loading and saving the JSON data file, and `SaveProfile`. Stored data is a constructor argument and saving does nothing. The window messenger is a log of the messages it would carry.
- Time: wall-clock delays and frame rates are not modelled. This covers the 60 FPS movement timer, the one-second battle timer, the 16 ms glide interval, the random 3–5 s delay after `Start` (3000–4999 ms) and 5–10 s delay after each cooldown (5000–9999 ms) and the 300 ms combat delays. The host decides when each timer fires and which pending callback or glide goes next; an order the real dispatcher cannot produce is still allowed.
- Threading: `Task.Delay` continuations and `Dispatcher.Invoke` are left out. A delayed callback is an entry of `pending` that runs on the same thread as everything else.
- Randomness: `Random` is left out. Each draw is a parameter. The jump target's range [50, 179] is a precondition only where a lemma needs it (`Battle.ApproachStart`).
- Floating point: doubles are reals, so no rounding is modelled. The truncated reward amounts are proved over the reals (`Economy.RewardsClosedForm`). The source's double arithmetic can differ from them by one unit at a cut point.
- Debug logging (`Log`, `Debug.WriteLine`): it has no effect on state.
- The event argument classes: events are datatype constructors carrying the same values.
- `BOSS_MOVE_SPEED`: the source declares it but never uses it.
- The movement timer is not a separate flag. It runs exactly while the engine runs, so a movement tick is guarded by `running`.
- The battle class keeps the source's fields grouped into three records: the hero's, the boss's and the jump's. The values and their updates are the source's, but `Model()` flattens them.
- BattleSystem.BattleSystemService.GlideTimerTick: requires a glide with a positive step count. Every `AnimatePosition` call in the source passes a positive constant.
- Statistics.GetMonthStatistics: requires a year and month for which `new DateTime(year, month, 1).AddMonths(1)` exists. Otherwise the source throws, and exceptions are not modelled.
- `GetTodayStatistics` and the no-argument `GetMonthStatistics`: they only read the clock and delegate to the modelled overloads.
- `ProjectService.GetProjectStats` and `GetAllProjects`: the first is not part of this model. The second returns the field `projects` as it stands.
- Integer width: sums of seconds, gold and experience are unbounded integers, so LINQ `Sum` overflow and `int` wrap-around are not modelled. The exception is the `(int)` cast of the long seconds total in `LoadProgress` (`AchievementSystem.ToInt32`).
- Sorting stability: `OrderByDescending` is stable in .NET. The model proves its result sorted, a permutation of the groups and with distinct names, but not which of two equal totals comes first. `Statistics.ProjectComparisonFacts` therefore relates the comparison to the range list's own order.
- AchievementSystem.AchievementService.CheckAchievements: reads `DateTime.Now` once per call, for every achievement it unlocks. The source reads the clock afresh for each one.
- Object identity: achievements and projects are values. The source shares project objects between the list and `CurrentProject`; the model keeps a copy that follows the listed project with the same id (`ProjectRegistry.Follow`).
