/**
 * Aggregation of recorded work sessions by day, week, month and date range
 * (Services/StatisticsService.cs). The session list the service reads from
 * the data store is a parameter. A date is a day number counted from
 * 0001-01-01, which was a Monday, and a session's start time is a count of
 * seconds from midnight of that day, so its date is the quotient by 86400.
 */
module Statistics {
  import opened Formatting
  import opened WorkSessions

  const SecondsPerDay: int := 86400

  /** `StartTime.Date`: the day a start instant falls on. */
  function DateOf(t: int): int
  {
    t / SecondsPerDay
  }

  /** `DayOfWeek` as .NET numbers it: Sunday is 0, Monday 1, Saturday 6. */
  function DayOfWeek(d: int): (w: int)
    ensures 0 <= w < 7
  {
    (d + 1) % 7
  }

  // ---------------------------------------------------------------------------
  // Filtering and summing sessions

  /** The conditions the service filters sessions by. */
  datatype Filter =
    | OnDate(date: int)            // `s.StartTime.Date == date`
    | DatesIn(lo: int, hi: int)    // `s.StartTime.Date >= lo && s.StartTime.Date < hi`
    | InstantsIn(lo: int, hi: int) // `s.StartTime >= lo && s.StartTime < hi`, two midnights
    | NameIs(name: string)         // `s.ProjectName == name`
    | NameIn(names: seq<string>)   // the name is one of `names`

  predicate Keeps(f: Filter, s: WorkSession)
  {
    match f
    case OnDate(date) => DateOf(s.startTime) == date
    case DatesIn(lo, hi) => lo <= DateOf(s.startTime) < hi
    case InstantsIn(lo, hi) => lo * SecondsPerDay <= s.startTime < hi * SecondsPerDay
    case NameIs(name) => s.projectName == name
    case NameIn(names) => s.projectName in names
  }

  /** `Where`: the sessions `keep` accepts, in their original order. */
  function Where(ss: seq<WorkSession>, keep: Filter): (r: seq<WorkSession>)
    ensures |r| <= |ss|
  {
    if ss == [] then []
    else (if Keeps(keep, ss[0]) then [ss[0]] else []) + Where(ss[1..], keep)
  }

  /** `Sum(s => s.DurationSeconds)`. */
  function Total(ss: seq<WorkSession>): int
  {
    if ss == [] then 0 else ss[0].durationSeconds + Total(ss[1..])
  }

  lemma {:induction false} WhereMember(ss: seq<WorkSession>, keep: Filter, s: WorkSession)
    ensures s in Where(ss, keep) <==> s in ss && Keeps(keep, s)
  {
    if ss != [] {
      WhereMember(ss[1..], keep, s);
      assert s in ss <==> s == ss[0] || s in ss[1..];
    }
  }

  lemma {:induction false} WhereAll(ss: seq<WorkSession>, keep: Filter)
    requires forall i :: 0 <= i < |ss| ==> Keeps(keep, ss[i])
    ensures Where(ss, keep) == ss
  {
    if ss != [] {
      WhereAll(ss[1..], keep);
    }
  }

  lemma {:induction false} WhereNone(ss: seq<WorkSession>, keep: Filter)
    requires forall i :: 0 <= i < |ss| ==> !Keeps(keep, ss[i])
    ensures Where(ss, keep) == []
  {
    if ss != [] {
      WhereNone(ss[1..], keep);
    }
  }

  /** Two filters that agree on every session select the same sessions. */
  lemma {:induction false} WhereSame(ss: seq<WorkSession>, f: Filter, g: Filter)
    requires forall i :: 0 <= i < |ss| ==> Keeps(f, ss[i]) == Keeps(g, ss[i])
    ensures Where(ss, f) == Where(ss, g)
  {
    if ss != [] {
      WhereSame(ss[1..], f, g);
    }
  }

  /** Filtering twice does not depend on the order of the two filters. */
  lemma {:induction false} WhereCommute(ss: seq<WorkSession>, f: Filter, g: Filter)
    ensures Where(Where(ss, f), g) == Where(Where(ss, g), f)
  {
    if ss != [] {
      WhereCommute(ss[1..], f, g);
      var s := ss[0];
      var rf := Where(ss[1..], f);
      var rg := Where(ss[1..], g);
      if Keeps(f, s) {
        assert Where(ss, f) == [s] + rf;
        assert ([s] + rf)[0] == s && ([s] + rf)[1..] == rf;
      } else {
        assert Where(ss, f) == rf;
      }
      if Keeps(g, s) {
        assert Where(ss, g) == [s] + rg;
        assert ([s] + rg)[0] == s && ([s] + rg)[1..] == rg;
      } else {
        assert Where(ss, g) == rg;
      }
    }
  }

  /** One step of `Where` and `Total` together. */
  lemma WhereStep(ss: seq<WorkSession>, keep: Filter)
    requires ss != []
    ensures Total(Where(ss, keep)) == (if Keeps(keep, ss[0]) then ss[0].durationSeconds else 0) + Total(Where(ss[1..], keep))
    ensures |Where(ss, keep)| == (if Keeps(keep, ss[0]) then 1 else 0) + |Where(ss[1..], keep)|
  {
    var rest := Where(ss[1..], keep);
    if Keeps(keep, ss[0]) {
      assert ([ss[0]] + rest)[1..] == rest;
    } else {
      assert Where(ss, keep) == rest;
    }
  }

  /** A filter that is the disjoint union of two others adds up their totals
      and their counts. */
  lemma {:induction false} WhereSplit(ss: seq<WorkSession>, both: Filter, f: Filter, g: Filter)
    requires forall s :: Keeps(both, s) == (Keeps(f, s) || Keeps(g, s))
    requires forall s :: !(Keeps(f, s) && Keeps(g, s))
    ensures Total(Where(ss, both)) == Total(Where(ss, f)) + Total(Where(ss, g))
    ensures |Where(ss, both)| == |Where(ss, f)| + |Where(ss, g)|
  {
    if ss != [] {
      WhereSplit(ss[1..], both, f, g);
      WhereStep(ss, both);
      WhereStep(ss, f);
      WhereStep(ss, g);
    }
  }

  // ---------------------------------------------------------------------------
  // Date filters

  /** Comparing a start instant with two midnights is comparing its date
      with their dates. */
  lemma InstantsAreDates(lo: int, hi: int, s: WorkSession)
    ensures Keeps(InstantsIn(lo, hi), s) == Keeps(DatesIn(lo, hi), s)
  {
    var t := s.startTime;
    assert t == DateOf(t) * SecondsPerDay + t % SecondsPerDay;
  }

  /** Adjacent date ranges add up. */
  lemma DatesSplit(ss: seq<WorkSession>, lo: int, mid: int, hi: int)
    requires lo <= mid <= hi
    ensures Total(Where(ss, DatesIn(lo, hi))) == Total(Where(ss, DatesIn(lo, mid))) + Total(Where(ss, DatesIn(mid, hi)))
    ensures |Where(ss, DatesIn(lo, hi))| == |Where(ss, DatesIn(lo, mid))| + |Where(ss, DatesIn(mid, hi))|
  {
    WhereSplit(ss, DatesIn(lo, hi), DatesIn(lo, mid), DatesIn(mid, hi));
  }

  /** Day `d` on its own is the range from `d` to the next day. */
  lemma OneDay(ss: seq<WorkSession>, d: int, next: int)
    requires next == d + 1
    ensures Where(ss, DatesIn(d, next)) == Where(ss, OnDate(d))
  {
    WhereSame(ss, DatesIn(d, next), OnDate(d));
  }

  /** The totals of days `lo`, `lo + 1`, ..., `hi - 1`, oldest first. */
  function DayTotals(ss: seq<WorkSession>, lo: int, hi: int): (r: seq<int>)
    requires lo <= hi
    ensures |r| == hi - lo
    decreases hi - lo
  {
    if hi == lo then [] else DayTotals(ss, lo, hi - 1) + [Total(Where(ss, OnDate(hi - 1)))]
  }

  /** The sum of a list of integers. */
  function SumInts(xs: seq<int>): int
  {
    if xs == [] then 0 else SumInts(xs[..|xs| - 1]) + xs[|xs| - 1]
  }

  lemma SumIntsAppend(xs: seq<int>, x: int)
    ensures SumInts(xs + [x]) == SumInts(xs) + x
  {
    assert (xs + [x])[..|xs|] == xs;
  }

  /** The days of a range add up to the range. */
  lemma {:induction false} DayTotalsSum(ss: seq<WorkSession>, lo: int, hi: int)
    requires lo <= hi
    ensures SumInts(DayTotals(ss, lo, hi)) == Total(Where(ss, DatesIn(lo, hi)))
    decreases hi - lo
  {
    if hi == lo {
      WhereNone(ss, DatesIn(lo, lo));
    } else {
      var last := hi - 1;
      DayTotalsSum(ss, lo, last);
      SumIntsAppend(DayTotals(ss, lo, last), Total(Where(ss, OnDate(last))));
      DatesSplit(ss, lo, last, hi);
      OneDay(ss, last, hi);
    }
  }

  // ---------------------------------------------------------------------------
  // Grouping by project name

  /** The project name of every session, in order. */
  function Keys(ss: seq<WorkSession>): (ks: seq<string>)
    ensures |ks| == |ss|
  {
    seq(|ss|, i requires 0 <= i < |ss| => ss[i].projectName)
  }

  /** The distinct project names of `ss` in order of first occurrence, the
      keys of `GroupBy(s => s.ProjectName)`. */
  function Names(ss: seq<WorkSession>): seq<string>
  {
    if ss == [] then []
    else
      var ns := Names(ss[..|ss| - 1]);
      var n := ss[|ss| - 1].projectName;
      if n in ns then ns else ns + [n]
  }

  /** Every project name occurs once among the group keys, and the keys are
      the names the sessions carry. */
  lemma {:induction false} NamesSpec(ss: seq<WorkSession>)
    ensures forall i, j :: 0 <= i < j < |Names(ss)| ==> Names(ss)[i] != Names(ss)[j]
    ensures forall n :: n in Names(ss) <==> n in Keys(ss)
  {
    if ss != [] {
      var init := ss[..|ss| - 1];
      NamesSpec(init);
      assert Keys(ss) == Keys(init) + [ss[|ss| - 1].projectName];
    }
  }

  /** One group's project name, summed duration and session count. */
  datatype ProjectTotal = ProjectTotal(projectName: string, totalSeconds: int, sessionCount: int)

  /** The group of the sessions named `n`: their summed duration and their
      number. */
  function Group(ss: seq<WorkSession>, n: string): (g: ProjectTotal)
    ensures g.projectName == n
  {
    if ss == [] then ProjectTotal(n, 0, 0)
    else
      var g := Group(ss[1..], n);
      if Keeps(NameIs(n), ss[0]) then ProjectTotal(n, ss[0].durationSeconds + g.totalSeconds, g.sessionCount + 1)
      else g
  }

  /** A group sums and counts exactly the sessions filtered by its name. */
  lemma {:induction false} GroupIsWhere(ss: seq<WorkSession>, n: string)
    ensures Group(ss, n) == ProjectTotal(n, Total(Where(ss, NameIs(n))), |Where(ss, NameIs(n))|)
  {
    if ss != [] {
      GroupIsWhere(ss[1..], n);
      WhereStep(ss, NameIs(n));
    }
  }

  function GroupsOf(ss: seq<WorkSession>, ns: seq<string>): (gs: seq<ProjectTotal>)
    ensures |gs| == |ns|
  {
    if ns == [] then [] else [Group(ss, ns[0])] + GroupsOf(ss, ns[1..])
  }

  lemma {:induction false} GroupsOfAt(ss: seq<WorkSession>, ns: seq<string>, i: int)
    requires 0 <= i < |ns|
    ensures GroupsOf(ss, ns)[i] == Group(ss, ns[i])
  {
    if i > 0 {
      GroupsOfAt(ss, ns[1..], i - 1);
    }
  }

  function SumTotals(gs: seq<ProjectTotal>): int
  {
    if gs == [] then 0 else gs[0].totalSeconds + SumTotals(gs[1..])
  }

  function SumCounts(gs: seq<ProjectTotal>): int
  {
    if gs == [] then 0 else gs[0].sessionCount + SumCounts(gs[1..])
  }

  /** The groups of distinct names add up to the sessions carrying one of them. */
  lemma {:induction false} GroupsSum(ss: seq<WorkSession>, ns: seq<string>)
    requires forall i, j :: 0 <= i < j < |ns| ==> ns[i] != ns[j]
    ensures SumTotals(GroupsOf(ss, ns)) == Total(Where(ss, NameIn(ns)))
    ensures SumCounts(GroupsOf(ss, ns)) == |Where(ss, NameIn(ns))|
  {
    if ns == [] {
      WhereNone(ss, NameIn(ns));
    } else {
      GroupsSum(ss, ns[1..]);
      assert GroupsOf(ss, ns)[1..] == GroupsOf(ss, ns[1..]);
      assert forall m :: m in ns <==> m == ns[0] || m in ns[1..] by {
        assert ns == [ns[0]] + ns[1..];
      }
      assert ns[0] !in ns[1..];
      GroupIsWhere(ss, ns[0]);
      WhereSplit(ss, NameIn(ns), NameIs(ns[0]), NameIn(ns[1..]));
    }
  }

  // ---------------------------------------------------------------------------
  // OrderByDescending(p => p.TotalSeconds)

  predicate SortedByTotalDesc(gs: seq<ProjectTotal>)
  {
    forall i, j :: 0 <= i < j < |gs| ==> gs[i].totalSeconds >= gs[j].totalSeconds
  }

  predicate DistinctNames(gs: seq<ProjectTotal>)
  {
    forall i, j :: 0 <= i < j < |gs| ==> gs[i].projectName != gs[j].projectName
  }

  /** Puts `x` ahead of the first entry whose total it reaches. */
  function InsertByTotal(x: ProjectTotal, gs: seq<ProjectTotal>): seq<ProjectTotal>
  {
    if gs == [] || x.totalSeconds >= gs[0].totalSeconds then [x] + gs
    else [gs[0]] + InsertByTotal(x, gs[1..])
  }

  lemma {:induction false} InsertByTotalPerm(x: ProjectTotal, gs: seq<ProjectTotal>)
    ensures multiset(InsertByTotal(x, gs)) == multiset(gs) + multiset{x}
  {
    if gs != [] && x.totalSeconds < gs[0].totalSeconds {
      InsertByTotalPerm(x, gs[1..]);
      assert gs == [gs[0]] + gs[1..];
    }
  }

  lemma {:induction false} InsertByTotalMembers(x: ProjectTotal, gs: seq<ProjectTotal>)
    ensures forall e :: e in InsertByTotal(x, gs) <==> e == x || e in gs
  {
    InsertByTotalPerm(x, gs);
    forall e ensures e in InsertByTotal(x, gs) <==> e == x || e in gs {
      assert e in InsertByTotal(x, gs) <==> e in multiset(InsertByTotal(x, gs));
      assert e in gs <==> e in multiset(gs);
    }
  }

  lemma {:induction false} InsertByTotalSorted(x: ProjectTotal, gs: seq<ProjectTotal>)
    requires SortedByTotalDesc(gs)
    ensures SortedByTotalDesc(InsertByTotal(x, gs))
  {
    if gs != [] && x.totalSeconds < gs[0].totalSeconds {
      var rest := InsertByTotal(x, gs[1..]);
      InsertByTotalSorted(x, gs[1..]);
      InsertByTotalMembers(x, gs[1..]);
      var r := InsertByTotal(x, gs);
      assert r == [gs[0]] + rest;
      forall j | 1 <= j < |r| ensures r[0].totalSeconds >= r[j].totalSeconds {
        assert r[j] == rest[j - 1];
        assert rest[j - 1] in rest;
      }
    }
  }

  lemma {:induction false} InsertByTotalDistinct(x: ProjectTotal, gs: seq<ProjectTotal>)
    requires DistinctNames(gs)
    requires forall e :: e in gs ==> e.projectName != x.projectName
    ensures DistinctNames(InsertByTotal(x, gs))
  {
    var r := InsertByTotal(x, gs);
    if gs == [] || x.totalSeconds >= gs[0].totalSeconds {
      forall j | 1 <= j < |r| ensures r[0].projectName != r[j].projectName {
        assert r[j] == gs[j - 1];
        assert gs[j - 1] in gs;
      }
    } else {
      var rest := InsertByTotal(x, gs[1..]);
      InsertByTotalDistinct(x, gs[1..]);
      InsertByTotalMembers(x, gs[1..]);
      assert r == [gs[0]] + rest;
      forall j | 1 <= j < |r| ensures r[0].projectName != r[j].projectName {
        assert r[j] == rest[j - 1];
        assert rest[j - 1] in rest;
        if rest[j - 1] != x {
          var k :| 0 <= k < |gs[1..]| && gs[1..][k] == rest[j - 1];
          assert gs[k + 1] == rest[j - 1];
        } else {
          assert gs[0] in gs;
        }
      }
    }
  }

  lemma {:induction false} InsertByTotalSums(x: ProjectTotal, gs: seq<ProjectTotal>)
    ensures SumTotals(InsertByTotal(x, gs)) == x.totalSeconds + SumTotals(gs)
    ensures SumCounts(InsertByTotal(x, gs)) == x.sessionCount + SumCounts(gs)
  {
    var r := InsertByTotal(x, gs);
    if gs == [] || x.totalSeconds >= gs[0].totalSeconds {
      assert r[1..] == gs;
    } else {
      InsertByTotalSums(x, gs[1..]);
      assert r[1..] == InsertByTotal(x, gs[1..]);
    }
  }

  /** A stable sort on descending totals: entries with equal totals keep
      their order. */
  function OrderByTotalDesc(gs: seq<ProjectTotal>): seq<ProjectTotal>
  {
    if gs == [] then [] else InsertByTotal(gs[0], OrderByTotalDesc(gs[1..]))
  }

  /** The sort permutes its input. */
  lemma {:induction false} OrderByTotalDescPerm(gs: seq<ProjectTotal>)
    ensures multiset(OrderByTotalDesc(gs)) == multiset(gs)
  {
    if gs != [] {
      OrderByTotalDescPerm(gs[1..]);
      InsertByTotalPerm(gs[0], OrderByTotalDesc(gs[1..]));
      assert gs == [gs[0]] + gs[1..];
    }
  }

  lemma {:induction false} OrderByTotalDescFacts(gs: seq<ProjectTotal>)
    ensures SortedByTotalDesc(OrderByTotalDesc(gs))
    ensures SumTotals(OrderByTotalDesc(gs)) == SumTotals(gs)
    ensures SumCounts(OrderByTotalDesc(gs)) == SumCounts(gs)
  {
    if gs != [] {
      var rest := OrderByTotalDesc(gs[1..]);
      OrderByTotalDescFacts(gs[1..]);
      InsertByTotalSorted(gs[0], rest);
      InsertByTotalSums(gs[0], rest);
    }
  }

  lemma {:induction false} OrderByTotalDescDistinct(gs: seq<ProjectTotal>)
    requires DistinctNames(gs)
    ensures DistinctNames(OrderByTotalDesc(gs))
  {
    if gs != [] {
      var tail := gs[1..];
      var rest := OrderByTotalDesc(tail);
      assert DistinctNames(tail) by {
        forall i, j | 0 <= i < j < |tail|
          ensures tail[i].projectName != tail[j].projectName
        {
          assert tail[i] == gs[i + 1] && tail[j] == gs[j + 1];
        }
      }
      OrderByTotalDescDistinct(tail);
      OrderByTotalDescPerm(tail);
      forall e | e in rest ensures e.projectName != gs[0].projectName {
        assert e in multiset(tail);
        var k :| 0 <= k < |tail| && tail[k] == e;
        assert gs[k + 1] == e;
      }
      InsertByTotalDistinct(gs[0], rest);
    }
  }

  /** The per-project statistics of a list of sessions: grouped by project
      name, summed, counted and sorted by descending total. */
  function ProjectTotals(ss: seq<WorkSession>): seq<ProjectTotal>
  {
    OrderByTotalDesc(GroupsOf(ss, Names(ss)))
  }

  /** What a per-project list says about its sessions: sorted by descending
      total, one entry per distinct name, the entries are exactly the groups
      of the names that occur, and their totals and counts add up. */
  ghost predicate Breakdown(stats: seq<ProjectTotal>, ss: seq<WorkSession>)
  {
    && SortedByTotalDesc(stats)
    && DistinctNames(stats)
    && |stats| == |Names(ss)|
    && (forall e :: e in stats ==> e.projectName in Names(ss) && e == Group(ss, e.projectName))
    && (forall n :: n in Names(ss) ==> Group(ss, n) in stats)
    && SumTotals(stats) == Total(ss)
    && SumCounts(stats) == |ss|
  }

  lemma GroupsMembers(ss: seq<WorkSession>, ns: seq<string>)
    ensures forall e :: e in GroupsOf(ss, ns) ==> e.projectName in ns && e == Group(ss, e.projectName)
    ensures forall n :: n in ns ==> Group(ss, n) in GroupsOf(ss, ns)
  {
    var gs := GroupsOf(ss, ns);
    forall n | n in ns ensures Group(ss, n) in gs {
      var i :| 0 <= i < |ns| && ns[i] == n;
      GroupsOfAt(ss, ns, i);
    }
    forall e | e in gs ensures e.projectName in ns && e == Group(ss, e.projectName) {
      var i :| 0 <= i < |gs| && gs[i] == e;
      GroupsOfAt(ss, ns, i);
    }
  }

  lemma GroupsDistinct(ss: seq<WorkSession>, ns: seq<string>)
    requires forall i, j :: 0 <= i < j < |ns| ==> ns[i] != ns[j]
    ensures DistinctNames(GroupsOf(ss, ns))
  {
    var gs := GroupsOf(ss, ns);
    forall i, j | 0 <= i < j < |gs| ensures gs[i].projectName != gs[j].projectName {
      GroupsOfAt(ss, ns, i);
      GroupsOfAt(ss, ns, j);
    }
  }

  lemma ProjectTotalsMembers(ss: seq<WorkSession>)
    ensures forall e :: e in ProjectTotals(ss) ==> e.projectName in Names(ss) && e == Group(ss, e.projectName)
    ensures forall n :: n in Names(ss) ==> Group(ss, n) in ProjectTotals(ss)
  {
    var gs := GroupsOf(ss, Names(ss));
    GroupsMembers(ss, Names(ss));
    OrderByTotalDescPerm(gs);
    forall e ensures e in ProjectTotals(ss) <==> e in gs {
      assert e in ProjectTotals(ss) <==> e in multiset(ProjectTotals(ss));
      assert e in gs <==> e in multiset(gs);
    }
  }

  lemma ProjectTotalsBreakdown(ss: seq<WorkSession>)
    ensures Breakdown(ProjectTotals(ss), ss)
  {
    var ns := Names(ss);
    var gs := GroupsOf(ss, ns);
    var r := ProjectTotals(ss);
    NamesSpec(ss);
    OrderByTotalDescPerm(gs);
    GroupsDistinct(ss, ns);
    OrderByTotalDescFacts(gs);
    OrderByTotalDescDistinct(gs);
    assert |r| == |gs| by {
      assert |multiset(r)| == |multiset(gs)|;
    }
    ProjectTotalsMembers(ss);
    GroupsSum(ss, ns);
    forall i | 0 <= i < |ss| ensures Keeps(NameIn(ns), ss[i]) {
      assert Keys(ss)[i] == ss[i].projectName;
    }
    WhereAll(ss, NameIn(ns));
  }

  /** A group of a name that occurs has at least one session. */
  lemma GroupNonEmpty(ss: seq<WorkSession>, n: string)
    requires n in Names(ss)
    ensures Group(ss, n).sessionCount >= 1
  {
    NamesSpec(ss);
    var i :| 0 <= i < |ss| && Keys(ss)[i] == n;
    WhereMember(ss, NameIs(n), ss[i]);
    GroupIsWhere(ss, n);
  }

  /** `FirstOrDefault(p => p.ProjectName == n)?.TotalSeconds ?? 0`. */
  function TotalFor(stats: seq<ProjectTotal>, n: string): int
  {
    if stats == [] then 0
    else if stats[0].projectName == n then stats[0].totalSeconds
    else TotalFor(stats[1..], n)
  }

  lemma {:induction false} TotalForGroups(stats: seq<ProjectTotal>, ss: seq<WorkSession>, n: string)
    requires forall e :: e in stats ==> e == Group(ss, e.projectName)
    ensures TotalFor(stats, n) == if Group(ss, n) in stats then Group(ss, n).totalSeconds else 0
  {
    if stats != [] {
      assert stats[0] in stats;
      assert forall e :: e in stats[1..] ==> e in stats;
      TotalForGroups(stats[1..], ss, n);
      assert stats == [stats[0]] + stats[1..];
    }
  }

  /** Looking a project up in a per-project list of some sessions gives the
      total of that project's sessions, and 0 when it has none. */
  lemma TotalForBreakdown(stats: seq<ProjectTotal>, ss: seq<WorkSession>, n: string)
    requires Breakdown(stats, ss)
    ensures TotalFor(stats, n) == Total(Where(ss, NameIs(n)))
  {
    TotalForGroups(stats, ss, n);
    GroupIsWhere(ss, n);
    NamesSpec(ss);
    if Group(ss, n) !in stats {
      assert n !in Keys(ss);
      forall i | 0 <= i < |ss| ensures !Keeps(NameIs(n), ss[i]) {
        assert Keys(ss)[i] == ss[i].projectName;
      }
      WhereNone(ss, NameIs(n));
    }
  }

  // ---------------------------------------------------------------------------
  // Daily statistics

  datatype DailyStatistics = DailyStatistics(
    date: int,
    totalSeconds: int,
    sessionCount: int,
    projectStats: seq<ProjectTotal>)

  /** `GetStatisticsForDate`: the sessions that started on `date`, summed,
      counted and broken down by project. */
  function GetStatisticsForDate(ss: seq<WorkSession>, date: int): (r: DailyStatistics)
    ensures r.date == date
    ensures r.totalSeconds == Total(Where(ss, OnDate(date)))
    ensures r.sessionCount == |Where(ss, OnDate(date))|
  {
    var day := Where(ss, OnDate(date));
    DailyStatistics(date, Total(day), |day|, ProjectTotals(day))
  }

  /** A day's per-project list breaks the day down: one entry per project
      that has sessions that day, sorted by descending total, and the
      entries add up to the day's total and session count. */
  lemma DailyStatisticsBreakdown(ss: seq<WorkSession>, date: int)
    ensures Breakdown(GetStatisticsForDate(ss, date).projectStats, Where(ss, OnDate(date)))
    ensures SumTotals(GetStatisticsForDate(ss, date).projectStats) == GetStatisticsForDate(ss, date).totalSeconds
    ensures SumCounts(GetStatisticsForDate(ss, date).projectStats) == GetStatisticsForDate(ss, date).sessionCount
  {
    ProjectTotalsBreakdown(Where(ss, OnDate(date)));
  }

  /** The sum of the daily totals of a list of days. */
  function SumDaily(ds: seq<DailyStatistics>): int
  {
    if ds == [] then 0 else SumDaily(ds[..|ds| - 1]) + ds[|ds| - 1].totalSeconds
  }

  // ---------------------------------------------------------------------------
  // Weekly statistics

  datatype ProjectWeeklyStats = ProjectWeeklyStats(
    projectName: string,
    totalSeconds: int,
    sessionCount: int,
    dailyBreakdown: seq<int>)

  datatype WeeklyStatistics = WeeklyStatistics(
    startDate: int,
    endDate: int,
    totalSeconds: int,
    sessionCount: int,
    dailyStats: seq<DailyStatistics>,
    projectStats: seq<ProjectWeeklyStats>)

  /** A project's total on each of the given days, 0 where it has none. */
  function DailyBreakdown(days: seq<DailyStatistics>, n: string): seq<int>
  {
    seq(|days|, i requires 0 <= i < |days| => TotalFor(days[i].projectStats, n))
  }

  /** The weekly per-project entries: each group with its daily breakdown. */
  function WithBreakdown(gs: seq<ProjectTotal>, days: seq<DailyStatistics>): (r: seq<ProjectWeeklyStats>)
    ensures |r| == |gs|
  {
    seq(|gs|, j requires 0 <= j < |gs| =>
      ProjectWeeklyStats(gs[j].projectName, gs[j].totalSeconds, gs[j].sessionCount,
                         DailyBreakdown(days, gs[j].projectName)))
  }

  /** The weekly entries without their breakdowns. */
  function WeeklyTotals(ps: seq<ProjectWeeklyStats>): (r: seq<ProjectTotal>)
    ensures |r| == |ps|
  {
    seq(|ps|, j requires 0 <= j < |ps| =>
      ProjectTotal(ps[j].projectName, ps[j].totalSeconds, ps[j].sessionCount))
  }

  /** The total of day `d` among the day totals from `lo`. */
  lemma DayTotalsAt(ss: seq<WorkSession>, lo: int, hi: int, d: int)
    requires lo <= d < hi
    ensures DayTotals(ss, lo, hi)[d - lo] == Total(Where(ss, OnDate(d)))
    decreases hi - lo
  {
    if d < hi - 1 {
      DayTotalsAt(ss, lo, hi - 1, d);
      assert DayTotals(ss, lo, hi)[..hi - 1 - lo] == DayTotals(ss, lo, hi - 1);
    }
  }

  /** The daily statistics of days `lo` up to `hi - 1`, oldest first. */
  function DaysFrom(ss: seq<WorkSession>, lo: int, hi: int): (r: seq<DailyStatistics>)
    requires lo <= hi
    ensures |r| == hi - lo
    decreases hi - lo
  {
    if hi == lo then [] else DaysFrom(ss, lo, hi - 1) + [GetStatisticsForDate(ss, hi - 1)]
  }

  /** Entry `d - lo` of the days from `lo` is what `GetStatisticsForDate`
      reports for day `d`. */
  lemma DaysFromAt(ss: seq<WorkSession>, lo: int, hi: int, d: int)
    requires lo <= d < hi
    ensures DaysFrom(ss, lo, hi)[d - lo] == GetStatisticsForDate(ss, d)
    decreases hi - lo
  {
    if d < hi - 1 {
      DaysFromAt(ss, lo, hi - 1, d);
      assert DaysFrom(ss, lo, hi)[..hi - 1 - lo] == DaysFrom(ss, lo, hi - 1);
    }
  }

  /** The daily totals of consecutive days add up to the total of the range
      they cover. */
  lemma {:induction false} DaysFromSum(ss: seq<WorkSession>, lo: int, hi: int)
    requires lo <= hi
    ensures SumDaily(DaysFrom(ss, lo, hi)) == Total(Where(ss, DatesIn(lo, hi)))
    decreases hi - lo
  {
    if hi == lo {
      WhereNone(ss, DatesIn(lo, lo));
    } else {
      var last := hi - 1;
      var days := DaysFrom(ss, lo, hi);
      DaysFromSum(ss, lo, last);
      assert days[..|days| - 1] == DaysFrom(ss, lo, last);
      DatesSplit(ss, lo, last, hi);
      OneDay(ss, last, hi);
    }
  }

  /** What `GetWeekStatistics(startOfWeek)` returns: the seven days from
      `startOfWeek`, and the week's sessions summed, counted and broken down
      by project, each project with its total on each day. */
  function WeekStatistics(ss: seq<WorkSession>, startOfWeek: int): WeeklyStatistics
  {
    var endOfWeek := startOfWeek + 7;
    var week := Where(ss, DatesIn(startOfWeek, endOfWeek));
    var days := DaysFrom(ss, startOfWeek, endOfWeek);
    WeeklyStatistics(startOfWeek, endOfWeek - 1, Total(week), |week|, days,
                     WithBreakdown(ProjectTotals(week), days))
  }

  /** The week's days are the seven days from its start as the daily
      statistics report them, and they add up to the week. */
  lemma WeekDays(ss: seq<WorkSession>, startOfWeek: int)
    ensures var r := WeekStatistics(ss, startOfWeek);
      var week := Where(ss, DatesIn(startOfWeek, startOfWeek + 7));
      && r.startDate == startOfWeek && r.endDate == startOfWeek + 6
      && |r.dailyStats| == 7
      && (forall i :: 0 <= i < 7 ==> r.dailyStats[i] == GetStatisticsForDate(ss, startOfWeek + i))
      && r.totalSeconds == Total(week)
      && r.sessionCount == |week|
      && SumDaily(r.dailyStats) == r.totalSeconds
  {
    var end := startOfWeek + 7;
    var days := DaysFrom(ss, startOfWeek, end);
    forall i | 0 <= i < 7 ensures days[i] == GetStatisticsForDate(ss, startOfWeek + i) {
      DaysFromAt(ss, startOfWeek, end, startOfWeek + i);
    }
    DaysFromSum(ss, startOfWeek, end);
  }

  /** Looking a project up in the per-project list of entry `i` of `days`
      gives that project's total on day `start + i`. */
  ghost predicate DaysLookup(ss: seq<WorkSession>, start: int, days: seq<DailyStatistics>)
  {
    forall i, n :: 0 <= i < |days| ==>
      TotalFor(days[i].projectStats, n) == Total(Where(Where(ss, OnDate(start + i)), NameIs(n)))
  }

  /** Looking a project up in a day's per-project list gives the total of
      that project's sessions that day, 0 when it has none. */
  lemma DayLookup(ss: seq<WorkSession>, d: int, n: string)
    ensures TotalFor(GetStatisticsForDate(ss, d).projectStats, n) == Total(Where(Where(ss, OnDate(d)), NameIs(n)))
  {
    DailyStatisticsBreakdown(ss, d);
    TotalForBreakdown(GetStatisticsForDate(ss, d).projectStats, Where(ss, OnDate(d)), n);
    WhereCommute(ss, OnDate(d), NameIs(n));
  }

  /** The days from `lo` can be looked up that way. */
  lemma {:induction false} DaysFromLookup(ss: seq<WorkSession>, lo: int, hi: int)
    requires lo <= hi
    ensures DaysLookup(ss, lo, DaysFrom(ss, lo, hi))
    decreases hi - lo
  {
    if hi > lo {
      var last := hi - 1;
      var init := DaysFrom(ss, lo, last);
      var days := DaysFrom(ss, lo, hi);
      DaysFromLookup(ss, lo, last);
      forall i, n | 0 <= i < |days|
        ensures TotalFor(days[i].projectStats, n) == Total(Where(Where(ss, OnDate(lo + i)), NameIs(n)))
      {
        if i < |init| {
          assert days[i] == init[i];
        } else {
          DayLookup(ss, last, n);
        }
      }
    }
  }

  /** A project's breakdown over seven days that can be looked up: its total
      on each day, and the days add up to its total for the seven days. */
  lemma WeekBreakdown(ss: seq<WorkSession>, start: int, days: seq<DailyStatistics>, n: string)
    requires |days| == 7 && DaysLookup(ss, start, days)
    ensures var b := DailyBreakdown(days, n);
      && |b| == 7
      && (forall i :: 0 <= i < 7 ==> b[i] == Total(Where(Where(ss, OnDate(start + i)), NameIs(n))))
      && SumInts(b) == Total(Where(Where(ss, DatesIn(start, start + 7)), NameIs(n)))
  {
    var end := start + 7;
    var b := DailyBreakdown(days, n);
    var named := Where(ss, NameIs(n));
    var totals := DayTotals(named, start, end);
    forall i | 0 <= i < 7
      ensures b[i] == Total(Where(Where(ss, OnDate(start + i)), NameIs(n)))
      ensures b[i] == totals[i]
    {
      var d := start + i;
      assert b[i] == TotalFor(days[i].projectStats, n);
      WhereCommute(ss, OnDate(d), NameIs(n));
      DayTotalsAt(named, start, end, d);
      assert d - start == i;
    }
    assert b == totals;
    DayTotalsSum(named, start, end);
    WhereCommute(ss, DatesIn(start, end), NameIs(n));
  }

  /** The weekly per-project list over seven days that can be looked up: the week's groups,
      sorted, each with a breakdown that gives its total on each of the
      seven days and adds up to its total for the week. */
  lemma WeekProjectsOf(ss: seq<WorkSession>, start: int, days: seq<DailyStatistics>)
    requires |days| == 7 && DaysLookup(ss, start, days)
    ensures var week := Where(ss, DatesIn(start, start + 7));
      var ps := WithBreakdown(ProjectTotals(week), days);
      && Breakdown(WeeklyTotals(ps), week)
      && (forall p :: p in ps ==>
            && |p.dailyBreakdown| == 7
            && (forall i :: 0 <= i < 7 ==>
                  p.dailyBreakdown[i] == Total(Where(Where(ss, OnDate(start + i)), NameIs(p.projectName))))
            && SumInts(p.dailyBreakdown) == p.totalSeconds)
  {
    var week := Where(ss, DatesIn(start, start + 7));
    var groups := ProjectTotals(week);
    ProjectTotalsBreakdown(week);
    var ps := WithBreakdown(groups, days);
    assert WeeklyTotals(ps) == groups;
    forall p | p in ps
      ensures |p.dailyBreakdown| == 7
      ensures forall i :: 0 <= i < 7 ==>
        p.dailyBreakdown[i] == Total(Where(Where(ss, OnDate(start + i)), NameIs(p.projectName)))
      ensures SumInts(p.dailyBreakdown) == p.totalSeconds
    {
      var j :| 0 <= j < |ps| && ps[j] == p;
      assert groups[j] in groups;
      GroupIsWhere(week, p.projectName);
      WeekBreakdown(ss, start, days, p.projectName);
    }
  }

  /** The week's per-project list: the week's groups, sorted, each with a
      breakdown that gives its total on each of the seven days and adds up
      to its total for the week. */
  lemma WeekProjects(ss: seq<WorkSession>, startOfWeek: int)
    ensures var ps := WeekStatistics(ss, startOfWeek).projectStats;
      && Breakdown(WeeklyTotals(ps), Where(ss, DatesIn(startOfWeek, startOfWeek + 7)))
      && (forall p :: p in ps ==>
            && |p.dailyBreakdown| == 7
            && (forall i :: 0 <= i < 7 ==>
                  p.dailyBreakdown[i] == Total(Where(Where(ss, OnDate(startOfWeek + i)), NameIs(p.projectName))))
            && SumInts(p.dailyBreakdown) == p.totalSeconds)
  {
    DaysFromLookup(ss, startOfWeek, startOfWeek + 7);
    WeekProjectsOf(ss, startOfWeek, DaysFrom(ss, startOfWeek, startOfWeek + 7));
  }

  /** `GetWeekStatistics(startOfWeek)`: collects the seven daily statistics
      one day at a time. */
  method GetWeekStatistics(ss: seq<WorkSession>, startOfWeek: int) returns (r: WeeklyStatistics)
    ensures r == WeekStatistics(ss, startOfWeek)
  {
    var dailyStats: seq<DailyStatistics> := [];
    for i := 0 to 7
      invariant dailyStats == DaysFrom(ss, startOfWeek, startOfWeek + i)
    {
      dailyStats := dailyStats + [GetStatisticsForDate(ss, startOfWeek + i)];
    }

    var endOfWeek := startOfWeek + 7;
    var week := Where(ss, DatesIn(startOfWeek, endOfWeek));
    var projectStats := WithBreakdown(ProjectTotals(week), dailyStats);
    r := WeeklyStatistics(startOfWeek, endOfWeek - 1, Total(week), |week|, dailyStats, projectStats);
  }

  /** The first day of the week holding `today`: its Monday, or six days
      back when `today` is a Sunday. */
  function StartOfWeek(today: int): (s: int)
    ensures DayOfWeek(s) == 1
    ensures s <= today < s + 7
    ensures DayOfWeek(today) == 0 ==> s == today - 6
  {
    var start := today - DayOfWeek(today) + 1;
    if DayOfWeek(today) == 0 then start - 7 else start
  }

  /** `GetWeekStatistics()`: the statistics of the week holding `today`. */
  method GetThisWeekStatistics(ss: seq<WorkSession>, today: int) returns (r: WeeklyStatistics)
    ensures r == WeekStatistics(ss, r.startDate)
    ensures DayOfWeek(r.startDate) == 1 && r.startDate <= today <= r.endDate == r.startDate + 6
  {
    r := GetWeekStatistics(ss, StartOfWeek(today));
  }

  // ---------------------------------------------------------------------------
  // Monthly statistics

  predicate IsLeapYear(y: int)
  {
    y % 4 == 0 && (y % 100 != 0 || y % 400 == 0)
  }

  function DaysInMonth(y: int, m: int): (n: int)
    requires 1 <= m <= 12
    ensures 28 <= n <= 31
  {
    if m == 2 then (if IsLeapYear(y) then 29 else 28)
    else if m == 4 || m == 6 || m == 9 || m == 11 then 30
    else 31
  }

  function DaysBeforeMonth(y: int, m: int): int
    requires 1 <= m <= 12
  {
    if m == 1 then 0 else DaysBeforeMonth(y, m - 1) + DaysInMonth(y, m - 1)
  }

  /** The day number of the first of January of year `y`. */
  function FirstOfYear(y: int): int
    requires y >= 1
  {
    365 * (y - 1) + (y - 1) / 4 - (y - 1) / 100 + (y - 1) / 400
  }

  /** `new DateTime(year, month, 1)` as a day number. */
  function FirstOfMonth(y: int, m: int): int
    requires 1 <= y && 1 <= m <= 12
  {
    FirstOfYear(y) + DaysBeforeMonth(y, m)
  }

  /** The arguments for which `new DateTime(year, month, 1).AddMonths(1)`
      does not throw. */
  predicate ValidMonth(y: int, m: int)
  {
    1 <= y <= 9999 && 1 <= m <= 12 && !(y == 9999 && m == 12)
  }

  function Min(a: int, b: int): int
  {
    if a <= b then a else b
  }

  datatype MonthlyStatistics = MonthlyStatistics(
    year: int,
    month: int,
    totalSeconds: int,
    sessionCount: int,
    projectStats: seq<ProjectTotal>,
    weeklyBreakdown: seq<int>)

  /** The sessions that started between two midnights are those whose date
      lies between the two days. */
  lemma InstantsFilter(ss: seq<WorkSession>, lo: int, hi: int)
    ensures Where(ss, InstantsIn(lo, hi)) == Where(ss, DatesIn(lo, hi))
  {
    forall i | 0 <= i < |ss| ensures Keeps(InstantsIn(lo, hi), ss[i]) == Keeps(DatesIn(lo, hi), ss[i]) {
      InstantsAreDates(lo, hi, ss[i]);
    }
    WhereSame(ss, InstantsIn(lo, hi), DatesIn(lo, hi));
  }

  /** Every session of a filtered list passes the filter. */
  lemma WhereKeeps(ss: seq<WorkSession>, keep: Filter)
    ensures forall i :: 0 <= i < |Where(ss, keep)| ==> Keeps(keep, Where(ss, keep)[i])
  {
    var r := Where(ss, keep);
    forall i | 0 <= i < |r| ensures Keeps(keep, r[i]) {
      assert r[i] in r;
      WhereMember(ss, keep, r[i]);
    }
  }

  /** The totals of the 7-day chunks from day `lo` on, the last one cut at
      day `hi`. */
  function Chunks(ms: seq<WorkSession>, lo: int, hi: int): seq<int>
    decreases hi - lo
  {
    if lo >= hi then []
    else
      var next := Min(lo + 7, hi);
      [Total(Where(ms, InstantsIn(lo, next)))] + Chunks(ms, next, hi)
  }

  /** The first chunk from `lo`, taken off the front. */
  lemma ChunksStep(ms: seq<WorkSession>, lo: int, next: int, hi: int, done: seq<int>)
    requires lo < hi && next == Min(lo + 7, hi)
    ensures done + Chunks(ms, lo, hi) == (done + [Total(Where(ms, InstantsIn(lo, next)))]) + Chunks(ms, next, hi)
  {
  }

  /** A span of `hi - lo` days has that many days divided by 7, rounded up,
      chunks. */
  lemma {:induction false} ChunksLength(ms: seq<WorkSession>, lo: int, hi: int)
    requires lo <= hi
    ensures |Chunks(ms, lo, hi)| == (hi - lo + 6) / 7
    decreases hi - lo
  {
    if lo < hi {
      ChunksLength(ms, Min(lo + 7, hi), hi);
    }
  }

  /** Chunk `k` holds the sessions dated from day `lo + 7 * k` to six days
      later, or to the last day before `hi` if that comes first. */
  lemma {:induction false} ChunksAt(ms: seq<WorkSession>, lo: int, hi: int, k: int)
    requires lo <= hi
    requires 0 <= k < |Chunks(ms, lo, hi)|
    ensures Chunks(ms, lo, hi)[k] == Total(Where(ms, DatesIn(lo + 7 * k, Min(lo + 7 * k + 7, hi))))
    decreases hi - lo
  {
    var next := Min(lo + 7, hi);
    if k == 0 {
      InstantsFilter(ms, lo, next);
    } else {
      ChunksAt(ms, next, hi, k - 1);
      assert next + 7 * (k - 1) == lo + 7 * k;
    }
  }

  lemma {:induction false} SumIntsCons(x: int, xs: seq<int>)
    ensures SumInts([x] + xs) == x + SumInts(xs)
    decreases |xs|
  {
    if xs != [] {
      var init := xs[..|xs| - 1];
      SumIntsCons(x, init);
      assert ([x] + xs)[..|xs|] == [x] + init;
    }
  }

  /** The chunks add up to the span they cut. */
  lemma {:induction false} ChunksSum(ms: seq<WorkSession>, lo: int, hi: int)
    requires lo <= hi
    ensures SumInts(Chunks(ms, lo, hi)) == Total(Where(ms, DatesIn(lo, hi)))
    decreases hi - lo
  {
    if lo == hi {
      WhereNone(ms, DatesIn(lo, lo));
    } else {
      var next := Min(lo + 7, hi);
      ChunksSum(ms, next, hi);
      SumIntsCons(Total(Where(ms, InstantsIn(lo, next))), Chunks(ms, next, hi));
      InstantsFilter(ms, lo, next);
      DatesSplit(ms, lo, next, hi);
    }
  }

  /** What `GetMonthStatistics(year, month)` returns: the sessions that
      started in the month, summed, counted, broken down by project and into
      7-day chunks from the first of the month. */
  function MonthStatistics(ss: seq<WorkSession>, year: int, month: int): MonthlyStatistics
    requires ValidMonth(year, month)
  {
    var lo := FirstOfMonth(year, month);
    var hi := lo + DaysInMonth(year, month);
    var ms := Where(ss, InstantsIn(lo, hi));
    MonthlyStatistics(year, month, Total(ms), |ms|, ProjectTotals(ms), Chunks(ms, lo, hi))
  }

  /** The month's sessions are those dated in the month, and its
      per-project list breaks them down. */
  lemma MonthProjects(ss: seq<WorkSession>, year: int, month: int)
    requires ValidMonth(year, month)
    ensures var lo := FirstOfMonth(year, month);
      var hi := lo + DaysInMonth(year, month);
      var ms := Where(ss, InstantsIn(lo, hi));
      && ms == Where(ss, DatesIn(lo, hi))
      && Breakdown(MonthStatistics(ss, year, month).projectStats, ms)
  {
    var lo := FirstOfMonth(year, month);
    var hi := lo + DaysInMonth(year, month);
    InstantsFilter(ss, lo, hi);
    ProjectTotalsBreakdown(Where(ss, InstantsIn(lo, hi)));
  }

  /** A span of 28 to 31 days has four or five chunks; chunk `k` holds the
      days from `7 * k` days after the first, up to six days later or the
      span's end; and the chunks add up to the span's total. */
  lemma SpanChunks(ss: seq<WorkSession>, lo: int, hi: int)
    requires 28 <= hi - lo <= 31
    ensures var ms := Where(ss, InstantsIn(lo, hi));
      var wb := Chunks(ms, lo, hi);
      && |wb| == (hi - lo + 6) / 7
      && 4 <= |wb| <= 5
      && (forall k :: 0 <= k < |wb| ==> wb[k] == Total(Where(ms, DatesIn(lo + 7 * k, Min(lo + 7 * k + 7, hi)))))
      && SumInts(wb) == Total(ms)
  {
    var ms := Where(ss, InstantsIn(lo, hi));
    var wb := Chunks(ms, lo, hi);
    ChunksLength(ms, lo, hi);
    forall k | 0 <= k < |wb|
      ensures wb[k] == Total(Where(ms, DatesIn(lo + 7 * k, Min(lo + 7 * k + 7, hi))))
    {
      ChunksAt(ms, lo, hi, k);
    }
    ChunksSum(ms, lo, hi);
    InstantsFilter(ss, lo, hi);
    WhereKeeps(ss, DatesIn(lo, hi));
    WhereAll(ms, DatesIn(lo, hi));
  }

  /** The month's weekly breakdown has four or five chunks (their contents
      are `SpanChunks`'), and they add up to the month's total. */
  lemma MonthChunks(ss: seq<WorkSession>, year: int, month: int)
    requires ValidMonth(year, month)
    ensures var r := MonthStatistics(ss, year, month);
      && |r.weeklyBreakdown| == (DaysInMonth(year, month) + 6) / 7
      && 4 <= |r.weeklyBreakdown| <= 5
      && SumInts(r.weeklyBreakdown) == r.totalSeconds
  {
    SpanChunks(ss, FirstOfMonth(year, month), FirstOfMonth(year, month) + DaysInMonth(year, month));
  }

  /** `GetMonthStatistics(year, month)`: walks the month in 7-day steps,
      cutting the last step at the month's end. */
  method GetMonthStatistics(ss: seq<WorkSession>, year: int, month: int) returns (r: MonthlyStatistics)
    requires ValidMonth(year, month)
    ensures r == MonthStatistics(ss, year, month)
  {
    var startOfMonth := FirstOfMonth(year, month);
    var endOfMonth := startOfMonth + DaysInMonth(year, month);
    var sessions := Where(ss, InstantsIn(startOfMonth, endOfMonth));

    var weeklyBreakdown: seq<int> := [];
    var currentDate := startOfMonth;
    while currentDate < endOfMonth
      invariant startOfMonth <= currentDate <= endOfMonth
      invariant weeklyBreakdown + Chunks(sessions, currentDate, endOfMonth) == Chunks(sessions, startOfMonth, endOfMonth)
      decreases endOfMonth - currentDate
    {
      var weekEnd := currentDate + 7;
      if weekEnd > endOfMonth {
        weekEnd := endOfMonth;
      }
      var weekSeconds := Total(Where(sessions, InstantsIn(currentDate, weekEnd)));
      ChunksStep(sessions, currentDate, weekEnd, endOfMonth, weeklyBreakdown);
      weeklyBreakdown := weeklyBreakdown + [weekSeconds];
      currentDate := weekEnd;
    }
    var projectStats := ProjectTotals(sessions);
    r := MonthlyStatistics(year, month, Total(sessions), |sessions|, projectStats, weeklyBreakdown);
  }

  // ---------------------------------------------------------------------------
  // Range statistics and project comparison

  datatype RangeStatistics = RangeStatistics(
    startDate: int,
    endDate: int,
    totalSeconds: int,
    sessionCount: int,
    projectStats: seq<ProjectTotal>)

  /** The sessions whose date lies from `startDate` to `endDate`, both
      included. */
  function RangeSessions(ss: seq<WorkSession>, startDate: int, endDate: int): seq<WorkSession>
  {
    Where(ss, DatesIn(startDate, endDate + 1))
  }

  /** `GetRangeStatistics`: the sessions of the range, summed, counted and
      broken down by project. */
  function GetRangeStatistics(ss: seq<WorkSession>, startDate: int, endDate: int): (r: RangeStatistics)
    ensures r.startDate == startDate && r.endDate == endDate
    ensures r.totalSeconds == Total(RangeSessions(ss, startDate, endDate))
    ensures r.sessionCount == |RangeSessions(ss, startDate, endDate)|
  {
    var rs := RangeSessions(ss, startDate, endDate);
    RangeStatistics(startDate, endDate, Total(rs), |rs|, ProjectTotals(rs))
  }

  /** The range's per-project list breaks the range down the way a day's
      list breaks the day down. */
  lemma RangeBreakdown(ss: seq<WorkSession>, startDate: int, endDate: int)
    ensures Breakdown(GetRangeStatistics(ss, startDate, endDate).projectStats, RangeSessions(ss, startDate, endDate))
    ensures SumTotals(GetRangeStatistics(ss, startDate, endDate).projectStats)
      == GetRangeStatistics(ss, startDate, endDate).totalSeconds
  {
    ProjectTotalsBreakdown(RangeSessions(ss, startDate, endDate));
  }

  /** A range cut after day `mid` adds up to its two parts. */
  lemma RangeSplit(ss: seq<WorkSession>, startDate: int, mid: int, endDate: int)
    requires startDate - 1 <= mid <= endDate
    ensures GetRangeStatistics(ss, startDate, endDate).totalSeconds
      == GetRangeStatistics(ss, startDate, mid).totalSeconds + GetRangeStatistics(ss, mid + 1, endDate).totalSeconds
    ensures GetRangeStatistics(ss, startDate, endDate).sessionCount
      == GetRangeStatistics(ss, startDate, mid).sessionCount + GetRangeStatistics(ss, mid + 1, endDate).sessionCount
  {
    DatesSplit(ss, startDate, mid + 1, endDate + 1);
  }

  /** A one-day range reports what the daily statistics of that day report. */
  lemma RangeOfOneDay(ss: seq<WorkSession>, date: int)
    ensures GetRangeStatistics(ss, date, date).totalSeconds == GetStatisticsForDate(ss, date).totalSeconds
    ensures GetRangeStatistics(ss, date, date).sessionCount == GetStatisticsForDate(ss, date).sessionCount
    ensures GetRangeStatistics(ss, date, date).projectStats == GetStatisticsForDate(ss, date).projectStats
  {
    OneDay(ss, date, date + 1);
  }

  /** A range that ends before it starts holds nothing. */
  lemma EmptyRange(ss: seq<WorkSession>, startDate: int, endDate: int)
    requires endDate < startDate
    ensures GetRangeStatistics(ss, startDate, endDate).totalSeconds == 0
    ensures GetRangeStatistics(ss, startDate, endDate).sessionCount == 0
    ensures GetRangeStatistics(ss, startDate, endDate).projectStats == []
  {
    WhereNone(ss, DatesIn(startDate, endDate + 1));
  }

  datatype ProjectComparisonData = ProjectComparisonData(
    projectName: string,
    totalSeconds: int,
    sessionCount: int,
    averageSessionSeconds: int,
    totalHours: real)

  /** One group as the comparison reports it: `(int)g.Average(...)` cuts the
      mean toward zero. */
  function Compare(g: ProjectTotal): (c: ProjectComparisonData)
    requires g.sessionCount > 0
    ensures c.projectName == g.projectName && c.totalSeconds == g.totalSeconds && c.sessionCount == g.sessionCount
    ensures c.averageSessionSeconds * g.sessionCount + TruncMod(g.totalSeconds, g.sessionCount) == g.totalSeconds
    ensures c.totalHours * 3600.0 == g.totalSeconds as real
  {
    TruncDivMod(g.totalSeconds, g.sessionCount);
    ProjectComparisonData(g.projectName, g.totalSeconds, g.sessionCount,
                          TruncDiv(g.totalSeconds, g.sessionCount), Hours(g.totalSeconds))
  }

  /** Every group of a per-project list has at least one session. */
  lemma BreakdownNonEmpty(stats: seq<ProjectTotal>, ss: seq<WorkSession>)
    requires Breakdown(stats, ss)
    ensures forall i :: 0 <= i < |stats| ==> stats[i].sessionCount >= 1
  {
    forall i | 0 <= i < |stats| ensures stats[i].sessionCount >= 1 {
      assert stats[i] in stats;
      GroupNonEmpty(ss, stats[i].projectName);
    }
  }

  /** `GetProjectComparison`: the range's per-project groups, each with its
      average session length and its total in hours. */
  function GetProjectComparison(ss: seq<WorkSession>, startDate: int, endDate: int): (r: seq<ProjectComparisonData>)
  {
    var gs := ProjectTotals(RangeSessions(ss, startDate, endDate));
    ProjectTotalsBreakdown(RangeSessions(ss, startDate, endDate));
    BreakdownNonEmpty(gs, RangeSessions(ss, startDate, endDate));
    seq(|gs|, i requires 0 <= i < |gs| => Compare(gs[i]))
  }

  /** The comparison lists the range's projects in the order of the range
      statistics, by descending total, each with at least one session, its
      total in hours and its mean session length. */
  lemma ProjectComparisonFacts(ss: seq<WorkSession>, startDate: int, endDate: int)
    ensures var r := GetProjectComparison(ss, startDate, endDate);
      var gs := GetRangeStatistics(ss, startDate, endDate).projectStats;
      && |r| == |gs|
      && (forall i :: 0 <= i < |r| ==>
            && r[i].projectName == gs[i].projectName
            && r[i].totalSeconds == gs[i].totalSeconds
            && r[i].sessionCount == gs[i].sessionCount >= 1
            && r[i].totalHours * 3600.0 == r[i].totalSeconds as real
            && r[i].averageSessionSeconds * r[i].sessionCount
               + TruncMod(r[i].totalSeconds, r[i].sessionCount) == r[i].totalSeconds)
      && (forall i, j :: 0 <= i < j < |r| ==> r[i].totalSeconds >= r[j].totalSeconds)
  {
    var gs := ProjectTotals(RangeSessions(ss, startDate, endDate));
    ProjectTotalsBreakdown(RangeSessions(ss, startDate, endDate));
    BreakdownNonEmpty(gs, RangeSessions(ss, startDate, endDate));
  }
}
