/** The gamified-progress store: a `UserProgress` aggregate, one
    `DailyActivity` record per day, a fixed achievement catalog with unlock
    flags, and an append-only points history. Days are UTC day numbers (day 0
    is 1970-01-01); `now` is an abstract timestamp. Each operation is one
    synchronous state transition. */
module Progress {
  import opened Options
  import opened Seqs

  datatype Category = Workout | Streak | Time | Milestone | Social

  datatype RequirementType = VideosCompleted | TotalTime | StreakDays | ProgramsCompleted | ConsecutiveDays

  datatype Requirement = Requirement(kind: RequirementType, value: int)

  datatype Achievement = Achievement(
    id: string, title: string, description: string, icon: string, category: Category,
    requirement: Requirement, points: int, unlockedAt: Option<int>, isUnlocked: bool)

  /** Weekly target and progress, both in minutes. */
  datatype WeeklyGoal = WeeklyGoal(target: int, current: int, weekStart: int)

  datatype MonthlyStats = MonthlyStats(videosCompleted: int, timeWatched: int, programsStarted: int, month: int, year: int)

  datatype UserProgress = UserProgress(
    totalPoints: int, level: int, experiencePoints: int, experienceToNextLevel: int,
    totalVideosCompleted: int, totalWatchTime: int, currentStreak: int, longestStreak: int,
    programsCompleted: int, lastActivityDate: Option<int>, weeklyGoal: WeeklyGoal, monthlyStats: MonthlyStats)

  /** One day's activity; `timeWatched` is in seconds. */
  datatype DailyActivity = DailyActivity(date: int, videosCompleted: int, timeWatched: int, programsStarted: int, points: int)

  /** The fields a caller may supply to `updateProgress`; `None` means absent.
      (A supplied `date` is always overridden by today, so it is not kept.) */
  datatype ActivityPatch = ActivityPatch(videosCompleted: Option<int>, timeWatched: Option<int>, programsStarted: Option<int>, points: Option<int>)

  datatype PointsEntry = PointsEntry(date: int, points: int, reason: string)

  datatype ProgressStats = ProgressStats(totalWorkouts: int, averageSessionTime: real, favoriteCategory: string, improvementRate: int)

  // ---------------------------------------------------------------- catalog

  function Locked(id: string, title: string, description: string, icon: string, category: Category,
                  kind: RequirementType, value: int, points: int): Achievement {
    Achievement(id, title, description, icon, category, Requirement(kind, value), points, None, false)
  }

  const DefaultAchievements: seq<Achievement> := [
    Locked("first_video", "First Steps", "Complete your first workout video", "\U{1F3AF}", Milestone, VideosCompleted, 1, 50),
    Locked("five_videos", "Getting Started", "Complete 5 workout videos", "\U{1F525}", Workout, VideosCompleted, 5, 100),
    Locked("ten_videos", "Dedicated Learner", "Complete 10 workout videos", "\U{1F4AA}", Workout, VideosCompleted, 10, 200),
    Locked("first_hour", "Time Keeper", "Watch 1 hour of content", "\U{23F0}", Time, TotalTime, 3600, 75),
    Locked("five_hours", "Committed Student", "Watch 5 hours of content", "\U{1F4DA}", Time, TotalTime, 18000, 250),
    Locked("three_day_streak", "Consistency", "Maintain a 3-day workout streak", "\U{1F525}", Streak, StreakDays, 3, 150),
    Locked("week_streak", "Weekly Warrior", "Maintain a 7-day workout streak", "\U{26A1}", Streak, StreakDays, 7, 300),
    Locked("first_program", "Program Pioneer", "Complete your first program", "\U{1F3C6}", Milestone, ProgramsCompleted, 1, 500)
  ]

  /** The static part of an achievement: everything but its unlock state. */
  function CatalogEntry(a: Achievement): Achievement {
    a.(unlockedAt := None, isUnlocked := false)
  }

  /** The catalog holds eight entries with distinct ids; every threshold is
      at least one and every entry starts locked. */
  lemma CatalogThresholdsPositive()
    ensures |DefaultAchievements| == 8
    ensures forall i, j :: 0 <= i < j < |DefaultAchievements| ==> DefaultAchievements[i].id != DefaultAchievements[j].id
    ensures forall i :: 0 <= i < |DefaultAchievements| ==> DefaultAchievements[i].requirement.value >= 1
    ensures forall i :: 0 <= i < |DefaultAchievements| ==> CatalogEntry(DefaultAchievements[i]) == DefaultAchievements[i]
  {
  }

  // ---------------------------------------------------------------- levels

  /** `Math.floor(xp / 100) + 1`: 100 experience points per level, level 1 from 0. */
  function LevelFor(xp: int): (level: int)
    ensures (level - 1) * 100 <= xp < level * 100
  {
    xp / 100 + 1
  }

  /** `level * 100 - xp`: the points still missing for the next level. */
  function ExperienceToNext(xp: int): (r: int)
    ensures 1 <= r <= 100
    ensures (xp + r) % 100 == 0
  {
    LevelFor(xp) * 100 - xp
  }

  /** Whether the stored level fields agree with the stored experience. */
  predicate LevelMatches(p: UserProgress) {
    p.level == LevelFor(p.experiencePoints) && p.experienceToNextLevel == ExperienceToNext(p.experiencePoints)
  }

  /** The two reference points of the formula: 0 XP is level 1 with 100 to
      go, 250 XP is level 3 with 50 to go. */
  lemma LevelExamples()
    ensures LevelFor(0) == 1 && ExperienceToNext(0) == 100
    ensures LevelFor(250) == 3 && ExperienceToNext(250) == 50
  {
  }

  /** The aggregate a new user starts from: level 1, consistent with zero
      experience, every counter zero, no activity yet, a 150-minute weekly
      target whose week starts now, and the month's statistics at zero. */
  function InitialProgress(now: int, month: int, year: int): (r: UserProgress)
    ensures r.level == 1 && LevelMatches(r)
    ensures r.totalPoints == 0 && r.experiencePoints == 0
    ensures r.totalVideosCompleted == 0 && r.totalWatchTime == 0
    ensures r.currentStreak == 0 && r.longestStreak == 0 && r.programsCompleted == 0
    ensures r.lastActivityDate.None?
    ensures r.weeklyGoal == WeeklyGoal(150, 0, now)
    ensures r.monthlyStats == MonthlyStats(0, 0, 0, month, year)
  {
    UserProgress(0, 1, 0, 100, 0, 0, 0, 0, 0, None, WeeklyGoal(150, 0, now), MonthlyStats(0, 0, 0, month, year))
  }

  /** What `addPoints` does to the aggregate: points and experience move
      together and nothing else changes, the level included. */
  function WithPoints(p: UserProgress, points: int): (r: UserProgress)
    ensures r.totalPoints == p.totalPoints + points
    ensures r.experiencePoints == p.experiencePoints + points
    ensures r.level == p.level && r.experienceToNextLevel == p.experienceToNextLevel
    ensures r.(totalPoints := p.totalPoints, experiencePoints := p.experiencePoints) == p
  {
    p.(totalPoints := p.totalPoints + points, experiencePoints := p.experiencePoints + points)
  }

  /** `addPoints` leaves the level stale: from the initial state, 150 points
      reach 150 experience while the level stays 1. */
  lemma AddPointsLeavesLevelStale(now: int, month: int, year: int)
    ensures LevelMatches(InitialProgress(now, month, year))
    ensures var p := WithPoints(InitialProgress(now, month, year), 150);
      p.experiencePoints == 150 && p.level == 1 && !LevelMatches(p)
  {
  }

  // ---------------------------------------------------------------- daily activities

  ghost predicate DatesUnique(acts: seq<DailyActivity>) {
    forall i, j :: 0 <= i < j < |acts| ==> acts[i].date != acts[j].date
  }

  /** Whether a record is dated `day`: the test of `find(a => a.date === today)`. */
  function OnDate(day: int): DailyActivity -> bool {
    (a: DailyActivity) => a.date == day
  }

  function ZeroActivity(date: int): DailyActivity {
    DailyActivity(date, 0, 0, 0, 0)
  }

  /** Today's record, or an all-zero record dated today. */
  function GetTodayActivity(acts: seq<DailyActivity>, today: int): (r: DailyActivity)
    ensures r.date == today
    ensures (exists i :: 0 <= i < |acts| && acts[i].date == today) ==> r in acts
    ensures (forall i :: 0 <= i < |acts| ==> acts[i].date != today) ==> r == ZeroActivity(today)
  {
    Find(acts, OnDate(today)).GetOr(ZeroActivity(today))
  }

  /** With one record per day, today's activity is that record. */
  lemma TodayActivityIsTheRecord(acts: seq<DailyActivity>, today: int, i: nat)
    requires DatesUnique(acts) && i < |acts| && acts[i].date == today
    ensures GetTodayActivity(acts, today) == acts[i]
  {
    var r := GetTodayActivity(acts, today);
    var k :| 0 <= k < |acts| && acts[k] == r;
    assert acts[k].date == acts[i].date;
  }

  /** `{...todayActivity, ...activity, date: today}`: supplied fields replace
      today's values, they are not added to them. */
  function MergeActivity(base: DailyActivity, patch: ActivityPatch, today: int): (r: DailyActivity)
    ensures r.date == today
    ensures patch.videosCompleted.Some? ==> r.videosCompleted == patch.videosCompleted.value
    ensures patch.timeWatched.Some? ==> r.timeWatched == patch.timeWatched.value
    ensures patch.programsStarted.Some? ==> r.programsStarted == patch.programsStarted.value
    ensures patch.points.Some? ==> r.points == patch.points.value
    ensures patch.videosCompleted.None? ==> r.videosCompleted == base.videosCompleted
    ensures patch.timeWatched.None? ==> r.timeWatched == base.timeWatched
    ensures patch.programsStarted.None? ==> r.programsStarted == base.programsStarted
    ensures patch.points.None? ==> r.points == base.points
  {
    DailyActivity(today,
      patch.videosCompleted.GetOr(base.videosCompleted),
      patch.timeWatched.GetOr(base.timeWatched),
      patch.programsStarted.GetOr(base.programsStarted),
      patch.points.GetOr(base.points))
  }

  function NotOn(day: int): DailyActivity -> bool {
    (a: DailyActivity) => a.date != day
  }

  /** Milliseconds in a day. */
  const DayMs := 86400000

  /** Whether a record's date, read as UTC midnight, is not earlier than the
      instant `start` (a day number) at `timeOfDay` milliseconds. */
  function NotBefore(start: int, timeOfDay: nat): DailyActivity -> bool {
    (a: DailyActivity) => a.date * DayMs >= start * DayMs + timeOfDay
  }

  /** A later day, or the start day itself when the instant is midnight. */
  predicate InWindow(date: int, start: int, timeOfDay: nat) {
    date > start || (date == start && timeOfDay == 0)
  }

  /** A midnight is not before a day's instant exactly when it lies on a
      later day, or on that day and the instant is itself midnight. */
  lemma MidnightNotBefore(date: int, start: int, timeOfDay: nat)
    requires timeOfDay < DayMs
    ensures date * DayMs >= start * DayMs + timeOfDay <==> InWindow(date, start, timeOfDay)
  {
    if date > start {
      assert date * DayMs - start * DayMs == (date - start) * DayMs >= DayMs;
    } else if date < start {
      assert start * DayMs - date * DayMs == (start - date) * DayMs >= DayMs;
    }
  }

  /** The daily list after `updateProgress`: the other days' records in
      their order, then today's merged record. */
  function RecordToday(acts: seq<DailyActivity>, today: int, patch: ActivityPatch): (r: seq<DailyActivity>)
    ensures 1 <= |r| <= |acts| + 1
    ensures r[|r| - 1].date == today
  {
    Filter(acts, NotOn(today)) + [MergeActivity(GetTodayActivity(acts, today), patch, today)]
  }

  /** After recording, exactly one record is dated today and it is last;
      before it come the other days' records in their original order. */
  lemma RecordTodayShape(acts: seq<DailyActivity>, today: int, patch: ActivityPatch)
    ensures var r := RecordToday(acts, today, patch);
      && |r| >= 1
      && r[|r| - 1].date == today
      && (forall i :: 0 <= i < |r| - 1 ==> r[i].date != today)
      && r[..|r| - 1] == Filter(acts, NotOn(today))
  {
    var r := RecordToday(acts, today, patch);
    assert r[..|r| - 1] == Filter(acts, NotOn(today));
  }

  lemma {:induction false} FilterKeepsDatesUnique(acts: seq<DailyActivity>, keep: DailyActivity -> bool)
    requires DatesUnique(acts)
    ensures DatesUnique(Filter(acts, keep))
  {
    if acts != [] {
      FilterKeepsDatesUnique(acts[1..], keep);
      var rest := Filter(acts[1..], keep);
      forall x | x in rest
        ensures x.date != acts[0].date
      {
        var j :| 0 <= j < |acts[1..]| && acts[1..][j] == x;
        assert acts[j + 1] == x;
      }
    }
  }

  /** Recording keeps at most one record per day. */
  lemma RecordTodayKeepsDatesUnique(acts: seq<DailyActivity>, today: int, patch: ActivityPatch)
    requires DatesUnique(acts)
    ensures DatesUnique(RecordToday(acts, today, patch))
  {
    FilterKeepsDatesUnique(acts, NotOn(today));
    RecordTodayShape(acts, today, patch);
  }

  /** Reading today's activity back after recording gives the merged record:
      each supplied field overwrites the earlier value of the day. */
  lemma RecordTodayThenGet(acts: seq<DailyActivity>, today: int, patch: ActivityPatch)
    ensures GetTodayActivity(RecordToday(acts, today, patch), today)
         == MergeActivity(GetTodayActivity(acts, today), patch, today)
  {
    var filtered := Filter(acts, NotOn(today));
    var merged := MergeActivity(GetTodayActivity(acts, today), patch, today);
    FindAppended(filtered, merged, OnDate(today));
  }

  /** Recording today's activity does not change what any other day reads. */
  lemma {:induction false} RecordTodayLeavesOtherDays(acts: seq<DailyActivity>, today: int, x: DailyActivity, day: int)
    requires x.date == today && day != today
    ensures Find(Filter(acts, NotOn(today)) + [x], OnDate(day)) == Find(acts, OnDate(day))
  {
    if acts != [] {
      RecordTodayLeavesOtherDays(acts[1..], today, x, day);
      if acts[0].date != today {
        assert Filter(acts, NotOn(today)) + [x] == [acts[0]] + (Filter(acts[1..], NotOn(today)) + [x]);
      }
    }
  }

  /** Day of the week of a day number, 0 for Sunday (day 0 was a Thursday). */
  function Weekday(day: int): (w: nat)
    ensures w < 7
  {
    (day + 4) % 7
  }

  /** The most recent Sunday, today included. */
  function WeekStart(today: int): (r: int)
    ensures today - 6 <= r <= today
    ensures Weekday(r) == 0
  {
    today - Weekday(today)
  }

  /** The first day of the month, given today's day of the month. */
  function MonthStart(today: int, dayOfMonth: int): (r: int)
    requires 1 <= dayOfMonth <= 31
    ensures today - 30 <= r <= today
    ensures today - r == dayOfMonth - 1
  {
    today - (dayOfMonth - 1)
  }

  /** The records not before the most recent Sunday at the current time of
      day: every later day of the week, and Sunday itself only at midnight. */
  function GetWeeklyActivity(acts: seq<DailyActivity>, today: int, timeOfDay: nat): (r: seq<DailyActivity>)
    requires timeOfDay < DayMs
    ensures forall i :: 0 <= i < |r| ==> r[i] in acts && InWindow(r[i].date, WeekStart(today), timeOfDay)
    ensures forall i :: 0 <= i < |acts| && InWindow(acts[i].date, WeekStart(today), timeOfDay) ==> acts[i] in r
  {
    var r := Filter(acts, NotBefore(WeekStart(today), timeOfDay));
    forall a: DailyActivity { MidnightNotBefore(a.date, WeekStart(today), timeOfDay); }
    r
  }

  /** The records not before the first of the month at the current time of
      day: every later day, and the first itself only at midnight. */
  function GetMonthlyActivity(acts: seq<DailyActivity>, today: int, dayOfMonth: int, timeOfDay: nat): (r: seq<DailyActivity>)
    requires 1 <= dayOfMonth <= 31 && timeOfDay < DayMs
    ensures forall i :: 0 <= i < |r| ==> r[i] in acts && InWindow(r[i].date, MonthStart(today, dayOfMonth), timeOfDay)
    ensures forall i :: 0 <= i < |acts| && InWindow(acts[i].date, MonthStart(today, dayOfMonth), timeOfDay) ==> acts[i] in r
  {
    var r := Filter(acts, NotBefore(MonthStart(today, dayOfMonth), timeOfDay));
    forall a: DailyActivity { MidnightNotBefore(a.date, MonthStart(today, dayOfMonth), timeOfDay); }
    r
  }

  // ---------------------------------------------------------------- streak

  ghost predicate NewestFirst(s: seq<DailyActivity>) {
    forall i, j :: 0 <= i < j < |s| ==> s[i].date >= s[j].date
  }

  /** Insert `a` before the first record that is not newer than it. */
  function InsertNewestFirst(a: DailyActivity, s: seq<DailyActivity>): seq<DailyActivity> {
    if s == [] || s[0].date <= a.date then [a] + s
    else [s[0]] + InsertNewestFirst(a, s[1..])
  }

  /** `[...acts].sort((a, b) => b.date.localeCompare(a.date))`: a stable
      sort, newest day first. */
  function SortNewestFirst(acts: seq<DailyActivity>): seq<DailyActivity> {
    if acts == [] then [] else InsertNewestFirst(acts[0], SortNewestFirst(acts[1..]))
  }

  /** Inserting into a newest-first list keeps it newest first and adds
      exactly the inserted record. */
  lemma {:induction false} InsertKeepsOrder(a: DailyActivity, s: seq<DailyActivity>)
    requires NewestFirst(s)
    ensures NewestFirst(InsertNewestFirst(a, s))
    ensures multiset(InsertNewestFirst(a, s)) == multiset(s) + multiset{a}
  {
    if s != [] && s[0].date > a.date {
      var rest := InsertNewestFirst(a, s[1..]);
      InsertKeepsOrder(a, s[1..]);
      forall j | 0 <= j < |rest|
        ensures rest[j].date <= s[0].date
      {
        assert rest[j] in multiset(rest);
        if rest[j] != a {
          var k :| 0 <= k < |s[1..]| && s[1..][k] == rest[j];
          assert s[k + 1] == rest[j];
        }
      }
      assert s == [s[0]] + s[1..];
    }
  }

  /** The sort returns its input reordered newest first. */
  lemma {:induction false} SortIsOrderedPermutation(acts: seq<DailyActivity>)
    ensures NewestFirst(SortNewestFirst(acts))
    ensures multiset(SortNewestFirst(acts)) == multiset(acts)
    ensures |SortNewestFirst(acts)| == |acts|
  {
    if acts != [] {
      SortIsOrderedPermutation(acts[1..]);
      InsertKeepsOrder(acts[0], SortNewestFirst(acts[1..]));
      assert acts == [acts[0]] + acts[1..];
      assert |multiset(SortNewestFirst(acts))| == |multiset(acts)|;
    }
  }

  /** 0 + 1 + ... + n. */
  function Triangle(n: nat): nat {
    if n == 0 then 0 else Triangle(n - 1) + n
  }

  /** Whether the j-th newest record extends the streak. The loop accepts a
      record lying `j` days before the previously accepted one, so accepted
      records lie 0, 1, 3, 6, ... (Triangle(j)) days before today. */
  predicate Qualifies(sorted: seq<DailyActivity>, today: int, j: nat)
    requires j < |sorted|
  {
    sorted[j].date == today - Triangle(j) && sorted[j].videosCompleted > 0
  }

  /** The end of the run of qualifying records that starts at `from`. */
  function QualifyingRun(sorted: seq<DailyActivity>, today: int, from: nat): (r: nat)
    requires from <= |sorted|
    ensures from <= r <= |sorted|
    ensures forall j :: from <= j < r ==> Qualifies(sorted, today, j)
    ensures r < |sorted| ==> !Qualifies(sorted, today, r)
    decreases |sorted| - from
  {
    if from < |sorted| && Qualifies(sorted, today, from) then QualifyingRun(sorted, today, from + 1) else from
  }

  /** The streak `calculateStreak` reports for a daily list. */
  function StreakLength(acts: seq<DailyActivity>, today: int): (r: nat)
    ensures r <= |acts|
  {
    SortIsOrderedPermutation(acts);
    QualifyingRun(SortNewestFirst(acts), today, 0)
  }

  /** The run is the longest qualifying prefix: any prefix whose records all
      qualify and that stops at a non-qualifying record (or the end) is it. */
  lemma RunIsLongestPrefix(sorted: seq<DailyActivity>, today: int, k: nat)
    requires k <= |sorted|
    requires forall j :: 0 <= j < k ==> Qualifies(sorted, today, j)
    requires k < |sorted| ==> !Qualifies(sorted, today, k)
    ensures QualifyingRun(sorted, today, 0) == k
  {
  }

  /** Count the newest-first records that each lie exactly `streak` days
      before the previously accepted date (today at first) and have a
      completed video, stopping at the first that does not. */
  method CalculateStreak(activities: seq<DailyActivity>, today: int) returns (streak: nat)
    ensures streak == StreakLength(activities, today)
    ensures streak <= |activities|
  {
    var sortedActivities := SortNewestFirst(activities);
    streak := 0;
    var currentDate := today;
    for i := 0 to |sortedActivities|
      invariant streak == i
      invariant currentDate == today - Triangle(i) + i
      invariant forall j :: 0 <= j < i ==> Qualifies(sortedActivities, today, j)
    {
      var activity := sortedActivities[i];
      var daysDiff := currentDate - activity.date;
      if daysDiff == streak && activity.videosCompleted > 0 {
        streak := streak + 1;
        currentDate := activity.date;
      } else {
        break;
      }
    }
    RunIsLongestPrefix(sortedActivities, today, streak);
  }

  /** Between two consecutive accepted records the gap grows by one day each
      time: the j-th accepted record lies j days before the one before it. */
  lemma StreakGapsGrow(acts: seq<DailyActivity>, today: int, j: nat)
    requires 0 < j < StreakLength(acts, today)
    ensures var sorted := SortNewestFirst(acts);
      sorted[j - 1].date - sorted[j].date == j
  {
    var sorted := SortNewestFirst(acts);
    assert Qualifies(sorted, today, j - 1) && Qualifies(sorted, today, j);
  }

  function Day(date: int): DailyActivity {
    DailyActivity(date, 1, 600, 0, 0)
  }

  /** Three records stored oldest first come out of the sort newest first. */
  lemma SortThreeAscending(x: DailyActivity, y: DailyActivity, z: DailyActivity)
    requires x.date < y.date < z.date
    ensures SortNewestFirst([x, y, z]) == [z, y, x]
  {
    var acts := [x, y, z];
    assert acts[1..] == [y, z] && acts[1..][1..] == [z];
    assert SortNewestFirst([z]) == InsertNewestFirst(z, []) == [z];
    assert InsertNewestFirst(y, [z]) == [z] + InsertNewestFirst(y, []) == [z, y];
    assert SortNewestFirst([y, z]) == [z, y];
    assert InsertNewestFirst(x, [y]) == [y] + InsertNewestFirst(x, []) == [y, x];
    assert InsertNewestFirst(x, [z, y]) == [z] + InsertNewestFirst(x, [y]) == [z, y, x];
  }

  /** Activity today, yesterday and the day before gives a streak of 2, not
      3: the day before yesterday lies one day before yesterday, while the
      loop wants two. */
  lemma ThreeConsecutiveDaysGiveTwo(today: int)
    ensures StreakLength([Day(today - 2), Day(today - 1), Day(today)], today) == 2
  {
    var sorted := [Day(today), Day(today - 1), Day(today - 2)];
    SortThreeAscending(Day(today - 2), Day(today - 1), Day(today));
    assert Qualifies(sorted, today, 0) && Qualifies(sorted, today, 1) && !Qualifies(sorted, today, 2);
    RunIsLongestPrefix(sorted, today, 2);
  }

  /** Activity today, one day ago and three days ago gives a streak of 3. */
  lemma TriangularGapsGiveThree(today: int)
    ensures StreakLength([Day(today - 3), Day(today - 1), Day(today)], today) == 3
  {
    var sorted := [Day(today), Day(today - 1), Day(today - 3)];
    SortThreeAscending(Day(today - 3), Day(today - 1), Day(today));
    assert Qualifies(sorted, today, 0) && Qualifies(sorted, today, 1) && Qualifies(sorted, today, 2);
    RunIsLongestPrefix(sorted, today, 3);
  }

  // ---------------------------------------------------------------- progress update

  /** The aggregate after `updateProgress`: the supplied amounts are added to
      the totals (the day's record is overwritten, the totals are not), the
      streak is the one given, and the level is recomputed from experience. */
  function Advance(p: UserProgress, patch: ActivityPatch, streak: nat, now: int): (r: UserProgress)
    ensures r.totalVideosCompleted == p.totalVideosCompleted + patch.videosCompleted.GetOr(0)
    ensures r.totalWatchTime == p.totalWatchTime + patch.timeWatched.GetOr(0)
    ensures r.monthlyStats.videosCompleted == p.monthlyStats.videosCompleted + patch.videosCompleted.GetOr(0)
    ensures r.monthlyStats.timeWatched == p.monthlyStats.timeWatched + patch.timeWatched.GetOr(0)
    ensures r.monthlyStats.programsStarted == p.monthlyStats.programsStarted + patch.programsStarted.GetOr(0)
    ensures r.monthlyStats.month == p.monthlyStats.month && r.monthlyStats.year == p.monthlyStats.year
    ensures r.currentStreak == streak && r.lastActivityDate == Some(now)
    ensures LevelMatches(r)
  {
    var videos := patch.videosCompleted.GetOr(0);
    var time := patch.timeWatched.GetOr(0);
    var started := patch.programsStarted.GetOr(0);
    var xp := p.experiencePoints + patch.points.GetOr(0);
    p.(totalVideosCompleted := p.totalVideosCompleted + videos,
       totalWatchTime := p.totalWatchTime + time,
       weeklyGoal := p.weeklyGoal.(current := p.weeklyGoal.current + time / 60),
       monthlyStats := p.monthlyStats.(videosCompleted := p.monthlyStats.videosCompleted + videos,
                                       timeWatched := p.monthlyStats.timeWatched + time,
                                       programsStarted := p.monthlyStats.programsStarted + started),
       lastActivityDate := Some(now),
       currentStreak := streak,
       experiencePoints := xp,
       level := LevelFor(xp),
       experienceToNextLevel := ExperienceToNext(xp))
  }

  /** The `setUserProgress` updater of `updateProgress`: each supplied
      non-zero amount is added to its totals, then the activity time, the
      streak and the level are set. */
  method AdvanceProgress(prev: UserProgress, patch: ActivityPatch, streak: nat, now: int) returns (newProgress: UserProgress)
    ensures newProgress == Advance(prev, patch, streak, now)
  {
    newProgress := prev;
    if patch.videosCompleted.Some? && patch.videosCompleted.value != 0 {
      var v := patch.videosCompleted.value;
      newProgress := newProgress.(totalVideosCompleted := newProgress.totalVideosCompleted + v,
        monthlyStats := newProgress.monthlyStats.(videosCompleted := newProgress.monthlyStats.videosCompleted + v));
    }
    if patch.timeWatched.Some? && patch.timeWatched.value != 0 {
      var t := patch.timeWatched.value;
      newProgress := newProgress.(totalWatchTime := newProgress.totalWatchTime + t,
        monthlyStats := newProgress.monthlyStats.(timeWatched := newProgress.monthlyStats.timeWatched + t),
        weeklyGoal := newProgress.weeklyGoal.(current := newProgress.weeklyGoal.current + t / 60));
    }
    if patch.programsStarted.Some? && patch.programsStarted.value != 0 {
      var s := patch.programsStarted.value;
      newProgress := newProgress.(monthlyStats := newProgress.monthlyStats.(programsStarted := newProgress.monthlyStats.programsStarted + s));
    }
    newProgress := newProgress.(lastActivityDate := Some(now), currentStreak := streak);
    var newExperience := newProgress.experiencePoints + patch.points.GetOr(0);
    var newLevel := newExperience / 100 + 1;
    newProgress := newProgress.(experiencePoints := newExperience, level := newLevel,
      experienceToNextLevel := newLevel * 100 - newExperience);
  }

  /** An update leaves the level consistent with the experience, with 1 to
      100 points to the next level; credits whole minutes (rounded down) to
      the weekly goal; and never touches points, the longest streak or the
      programs completed. */
  lemma AdvanceEffects(p: UserProgress, patch: ActivityPatch, streak: nat, now: int)
    ensures var q := Advance(p, patch, streak, now);
      var minutes := q.weeklyGoal.current - p.weeklyGoal.current;
      && LevelMatches(q)
      && 1 <= q.experienceToNextLevel <= 100
      && q.experiencePoints == p.experiencePoints + patch.points.GetOr(0)
      && minutes * 60 <= patch.timeWatched.GetOr(0) < (minutes + 1) * 60
      && q.weeklyGoal.target == p.weeklyGoal.target && q.weeklyGoal.weekStart == p.weeklyGoal.weekStart
      && q.totalPoints == p.totalPoints
      && q.longestStreak == p.longestStreak
      && q.programsCompleted == p.programsCompleted
  {
  }

  // ---------------------------------------------------------------- achievements

  /** The unlock test of `checkAndUnlockAchievements`; `consecutive_days`
      has no branch and never unlocks. */
  predicate ShouldUnlock(a: Achievement, p: UserProgress)
    ensures ShouldUnlock(a, p) ==> a.requirement.kind != ConsecutiveDays
  {
    match a.requirement.kind
    case VideosCompleted => p.totalVideosCompleted >= a.requirement.value
    case TotalTime => p.totalWatchTime >= a.requirement.value
    case StreakDays => p.currentStreak >= a.requirement.value
    case ProgramsCompleted => p.programsCompleted >= a.requirement.value
    case ConsecutiveDays => false
  }

  /** One entry of the `.map`: an unlocked entry is returned as it is; a
      locked one is unlocked and stamped `now` exactly when its threshold is
      met; the static fields never change. */
  function Evaluate(a: Achievement, p: UserProgress, now: int): (r: Achievement)
    ensures CatalogEntry(r) == CatalogEntry(a)
    ensures a.isUnlocked ==> r == a
    ensures !a.isUnlocked ==> (r.isUnlocked <==> ShouldUnlock(a, p))
    ensures !a.isUnlocked && r.isUnlocked ==> r.unlockedAt == Some(now)
    ensures !r.isUnlocked ==> r == a
  {
    if a.isUnlocked then a
    else if ShouldUnlock(a, p) then a.(isUnlocked := true, unlockedAt := Some(now))
    else a
  }

  /** The catalog after one evaluation: each entry evaluated on its own, in
      catalog order. */
  function EvaluateAll(achievements: seq<Achievement>, p: UserProgress, now: int): (r: seq<Achievement>)
    ensures |r| == |achievements|
    ensures forall i :: 0 <= i < |r| ==> r[i] == Evaluate(achievements[i], p, now)
  {
    if achievements == [] then []
    else
      var n := |achievements| - 1;
      EvaluateAll(achievements[..n], p, now) + [Evaluate(achievements[n], p, now)]
  }

  /** One evaluation keeps every entry's static fields, leaves unlocked
      entries untouched, and unlocks a locked entry (stamping it with `now`)
      exactly when the progress meets its threshold. */
  lemma EvaluateAllEffects(achievements: seq<Achievement>, p: UserProgress, now: int)
    ensures var r := EvaluateAll(achievements, p, now);
      && (forall i :: 0 <= i < |r| ==> CatalogEntry(r[i]) == CatalogEntry(achievements[i]))
      && (forall i :: 0 <= i < |r| && achievements[i].isUnlocked ==> r[i] == achievements[i])
      && (forall i :: 0 <= i < |r| && !achievements[i].isUnlocked ==>
            (r[i].isUnlocked <==> ShouldUnlock(achievements[i], p)))
      && (forall i :: 0 <= i < |r| && !achievements[i].isUnlocked && r[i].isUnlocked ==> r[i].unlockedAt == Some(now))
      && (forall i :: 0 <= i < |r| && !r[i].isUnlocked ==> r[i] == achievements[i])
  {
  }

  /** The entries one evaluation unlocks, in catalog order. */
  function NewlyUnlocked(achievements: seq<Achievement>, p: UserProgress, now: int): (r: seq<Achievement>)
    ensures |r| <= |achievements|
    ensures forall k :: 0 <= k < |r| ==> r[k].isUnlocked && r[k].unlockedAt == Some(now)
  {
    if achievements == [] then []
    else
      var n := |achievements| - 1;
      var a := achievements[n];
      NewlyUnlocked(achievements[..n], p, now)
        + (if !a.isUnlocked && ShouldUnlock(a, p) then [Evaluate(a, p, now)] else [])
  }

  /** Progress only grows, so an achievement that is earned stays earned:
      with every counter at least as high, the threshold is still met. */
  lemma ShouldUnlockMonotone(a: Achievement, p: UserProgress, q: UserProgress)
    requires q.totalVideosCompleted >= p.totalVideosCompleted && q.totalWatchTime >= p.totalWatchTime
    requires q.currentStreak >= p.currentStreak && q.programsCompleted >= p.programsCompleted
    ensures ShouldUnlock(a, p) ==> ShouldUnlock(a, q)
  {
  }

  /** The entries of `after` at the positions where `before` was locked and
      `after` is unlocked, in position order: what changed from locked to
      unlocked between two versions of a catalog. */
  function UnlockedBy(before: seq<Achievement>, after: seq<Achievement>): seq<Achievement>
    requires |before| == |after|
  {
    if before == [] then []
    else
      var n := |before| - 1;
      UnlockedBy(before[..n], after[..n])
        + (if !before[n].isUnlocked && after[n].isUnlocked then [after[n]] else [])
  }

  /** The batch is exactly the catalog's evaluation restricted to the
      entries that went from locked to unlocked, in catalog order. */
  lemma {:induction false} NewlyUnlockedIsUnlockedBy(achievements: seq<Achievement>, p: UserProgress, now: int)
    ensures NewlyUnlocked(achievements, p, now) == UnlockedBy(achievements, EvaluateAll(achievements, p, now))
  {
    if achievements != [] {
      var n := |achievements| - 1;
      var r := EvaluateAll(achievements, p, now);
      NewlyUnlockedIsUnlockedBy(achievements[..n], p, now);
      assert r[..n] == EvaluateAll(achievements[..n], p, now);
    }
  }

  /** Every locked entry whose threshold is met is in the batch. */
  lemma {:induction false} NewlyUnlockedComplete(achievements: seq<Achievement>, p: UserProgress, now: int, i: nat)
    requires i < |achievements| && !achievements[i].isUnlocked && ShouldUnlock(achievements[i], p)
    ensures Evaluate(achievements[i], p, now) in NewlyUnlocked(achievements, p, now)
  {
    var n := |achievements| - 1;
    if i < n {
      assert achievements[..n][i] == achievements[i];
      NewlyUnlockedComplete(achievements[..n], p, now, i);
    }
  }

  /** Every entry of the batch is the evaluation of a catalog entry that was
      locked and is unlocked by the pass. */
  lemma {:induction false} NewlyUnlockedSound(achievements: seq<Achievement>, p: UserProgress, now: int, x: Achievement)
    requires x in NewlyUnlocked(achievements, p, now)
    ensures exists i :: (0 <= i < |achievements| && !achievements[i].isUnlocked
                         && EvaluateAll(achievements, p, now)[i].isUnlocked && x == EvaluateAll(achievements, p, now)[i])
  {
    var n := |achievements| - 1;
    var r := EvaluateAll(achievements, p, now);
    if x in NewlyUnlocked(achievements[..n], p, now) {
      NewlyUnlockedSound(achievements[..n], p, now, x);
      var i :| 0 <= i < n && !achievements[..n][i].isUnlocked
        && EvaluateAll(achievements[..n], p, now)[i].isUnlocked && x == EvaluateAll(achievements[..n], p, now)[i];
      assert achievements[..n][i] == achievements[i];
      assert r[i] == EvaluateAll(achievements[..n], p, now)[i];
    } else {
      assert r[n] == x;
    }
  }

  /** The points the given achievements award. */
  function PointsOf(achievements: seq<Achievement>): int {
    if achievements == [] then 0
    else PointsOf(achievements[..|achievements| - 1]) + achievements[|achievements| - 1].points
  }

  /** The history entries `addPoints` appends for the given achievements. */
  function AwardEntries(achievements: seq<Achievement>, now: int): (r: seq<PointsEntry>)
    ensures |r| == |achievements|
    ensures forall k :: 0 <= k < |r| ==>
      r[k] == PointsEntry(now, achievements[k].points, "Achievement: " + achievements[k].title)
  {
    if achievements == [] then []
    else
      var n := |achievements| - 1;
      AwardEntries(achievements[..n], now) + [PointsEntry(now, achievements[n].points, "Achievement: " + achievements[n].title)]
  }

  /** Sum of the points in a history. */
  function HistoryTotal(h: seq<PointsEntry>): int {
    if h == [] then 0 else HistoryTotal(h[..|h| - 1]) + h[|h| - 1].points
  }

  lemma {:induction false} HistoryTotalAppend(a: seq<PointsEntry>, b: seq<PointsEntry>)
    ensures HistoryTotal(a + b) == HistoryTotal(a) + HistoryTotal(b)
    decreases |b|
  {
    if b == [] {
      assert a + b == a;
    } else {
      assert (a + b)[..|a + b| - 1] == a + b[..|b| - 1];
      HistoryTotalAppend(a, b[..|b| - 1]);
    }
  }

  /** The points awarded for a batch are the points its history entries record. */
  lemma {:induction false} AwardEntriesTotal(achievements: seq<Achievement>, now: int)
    ensures HistoryTotal(AwardEntries(achievements, now)) == PointsOf(achievements)
  {
    if achievements != [] {
      var n := |achievements| - 1;
      AwardEntriesTotal(achievements[..n], now);
      assert AwardEntries(achievements, now)[..n] == AwardEntries(achievements[..n], now);
    }
  }

  /** One more catalog entry: the evaluation and the batch of a prefix grow
      by that entry's outcome alone. */
  lemma EvaluateStep(achievements: seq<Achievement>, i: nat, p: UserProgress, now: int)
    requires i < |achievements|
    ensures EvaluateAll(achievements[..i + 1], p, now) == EvaluateAll(achievements[..i], p, now) + [Evaluate(achievements[i], p, now)]
  {
    assert achievements[..i + 1][..i] == achievements[..i];
  }

  lemma NewlyUnlockedStep(achievements: seq<Achievement>, i: nat, p: UserProgress, now: int)
    requires i < |achievements|
    ensures var a := achievements[i];
      NewlyUnlocked(achievements[..i + 1], p, now)
        == NewlyUnlocked(achievements[..i], p, now) + (if !a.isUnlocked && ShouldUnlock(a, p) then [Evaluate(a, p, now)] else [])
  {
    assert achievements[..i + 1][..i] == achievements[..i];
  }

  lemma PointsOfAppend(batch: seq<Achievement>, a: Achievement, now: int)
    ensures PointsOf(batch + [a]) == PointsOf(batch) + a.points
    ensures AwardEntries(batch + [a], now) == AwardEntries(batch, now) + [PointsEntry(now, a.points, "Achievement: " + a.title)]
  {
    assert (batch + [a])[..|batch|] == batch;
  }

  /** Whether two snapshots agree on the four counters the unlock test reads
      (points and experience may differ). */
  predicate SameCounters(p: UserProgress, q: UserProgress) {
    && p.totalVideosCompleted == q.totalVideosCompleted && p.totalWatchTime == q.totalWatchTime
    && p.currentStreak == q.currentStreak && p.programsCompleted == q.programsCompleted
  }

  /** A second pass against progress with the same counters (for instance
      after the first pass credited its points) unlocks nothing more and
      awards nothing: the catalog is unchanged by it. */
  lemma {:induction false} EvaluateAllIdempotent(achievements: seq<Achievement>, p: UserProgress, q: UserProgress, now: int, later: int)
    requires SameCounters(p, q)
    ensures EvaluateAll(EvaluateAll(achievements, p, now), q, later) == EvaluateAll(achievements, p, now)
    ensures NewlyUnlocked(EvaluateAll(achievements, p, now), q, later) == []
  {
    if achievements != [] {
      var n := |achievements| - 1;
      var once := EvaluateAll(achievements, p, now);
      EvaluateAllIdempotent(achievements[..n], p, q, now, later);
      assert once[..n] == EvaluateAll(achievements[..n], p, now);
    }
  }

  /** Entries already unlocked stay unlocked: the unlocked list only grows. */
  lemma UnlockedOnlyGrows(achievements: seq<Achievement>, p: UserProgress, now: int)
    ensures forall x :: x in UnlockedAchievements(achievements) ==> x in UnlockedAchievements(EvaluateAll(achievements, p, now))
  {
    var r := EvaluateAll(achievements, p, now);
    forall x | x in UnlockedAchievements(achievements)
      ensures x in UnlockedAchievements(r)
    {
      var i :| 0 <= i < |achievements| && achievements[i] == x;
      assert r[i] == x;
    }
  }

  predicate IsUnlocked(a: Achievement) {
    a.isUnlocked
  }

  /** `achievements.filter(a => a.isUnlocked)`. */
  function UnlockedAchievements(achievements: seq<Achievement>): (r: seq<Achievement>)
    ensures forall i :: 0 <= i < |r| ==> r[i].isUnlocked && r[i] in achievements
    ensures forall i :: 0 <= i < |achievements| && achievements[i].isUnlocked ==> achievements[i] in r
  {
    Filter(achievements, IsUnlocked)
  }

  /** Entries whose threshold is not met add nothing to the batch. */
  lemma {:induction false} NothingUnlockedBetween(achievements: seq<Achievement>, lo: nat, hi: nat, p: UserProgress, now: int)
    requires lo <= hi <= |achievements|
    requires forall j :: lo <= j < hi ==> !ShouldUnlock(achievements[j], p)
    ensures NewlyUnlocked(achievements[..hi], p, now) == NewlyUnlocked(achievements[..lo], p, now)
    decreases hi
  {
    if lo < hi {
      NewlyUnlockedStep(achievements, hi - 1, p, now);
      NothingUnlockedBetween(achievements, lo, hi - 1, p, now);
    }
  }

  /** A first session: once one video has been completed, evaluating the
      fresh catalog unlocks exactly "First Steps" and awards its 50 points. */
  lemma FirstVideoUnlocksFirstSteps(p: UserProgress, now: int)
    requires p.totalVideosCompleted == 1 && p.totalWatchTime == 600
    requires p.currentStreak == 0 && p.programsCompleted == 0
    ensures NewlyUnlocked(DefaultAchievements, p, now)
         == [DefaultAchievements[0].(isUnlocked := true, unlockedAt := Some(now))]
    ensures PointsOf(NewlyUnlocked(DefaultAchievements, p, now)) == 50
  {
    var d := DefaultAchievements;
    var first := [d[0].(isUnlocked := true, unlockedAt := Some(now))];
    assert !ShouldUnlock(d[1], p) && !ShouldUnlock(d[2], p) && !ShouldUnlock(d[3], p) && !ShouldUnlock(d[4], p);
    assert !ShouldUnlock(d[5], p) && !ShouldUnlock(d[6], p) && !ShouldUnlock(d[7], p);
    NothingUnlockedBetween(d, 1, 8, p, now);
    NewlyUnlockedStep(d, 0, p, now);
    assert d[..0] == [] && d[..8] == d;
    PointsOfAppend([], first[0], now);
  }

  // ---------------------------------------------------------------- statistics

  /** Workout count, mean seconds per workout (0 with no workouts), and the
      two placeholder values the source returns as constants. */
  function GetProgressStats(p: UserProgress): (r: ProgressStats)
    ensures r.totalWorkouts == p.totalVideosCompleted
    ensures r.totalWorkouts > 0 ==> r.averageSessionTime * (r.totalWorkouts as real) == p.totalWatchTime as real
    ensures r.totalWorkouts <= 0 ==> r.averageSessionTime == 0.0
    ensures r.favoriteCategory == "Yoga" && r.improvementRate == 15
  {
    var totalWorkouts := p.totalVideosCompleted;
    var averageSessionTime := if totalWorkouts > 0 then p.totalWatchTime as real / totalWorkouts as real else 0.0;
    ProgressStats(totalWorkouts, averageSessionTime, "Yoga", 15)
  }

  // ---------------------------------------------------------------- the store

  /** The catalog keeps its entries and order, an entry carries a stamp
      exactly when unlocked, and the entries whose requirement can never be
      met (programs completed, consecutive days) stay locked. */
  ghost predicate CatalogKept(achievements: seq<Achievement>) {
    && |achievements| == |DefaultAchievements|
    && (forall i :: 0 <= i < |achievements| ==> CatalogEntry(achievements[i]) == DefaultAchievements[i])
    && (forall i :: 0 <= i < |achievements| ==> (achievements[i].isUnlocked <==> achievements[i].unlockedAt.Some?))
    && (forall i :: 0 <= i < |achievements| && achievements[i].requirement.kind in {ProgramsCompleted, ConsecutiveDays}
          ==> !achievements[i].isUnlocked)
  }

  /** Evaluation keeps the catalog invariant as long as no program is
      completed, which no operation of the store ever records. */
  lemma EvaluateAllKeepsCatalog(achievements: seq<Achievement>, p: UserProgress, now: int)
    requires CatalogKept(achievements) && p.programsCompleted == 0
    ensures CatalogKept(EvaluateAll(achievements, p, now))
  {
    CatalogThresholdsPositive();
    EvaluateAllEffects(achievements, p, now);
    var r := EvaluateAll(achievements, p, now);
    forall i | 0 <= i < |r|
      ensures r[i].requirement == DefaultAchievements[i].requirement
    {
      assert CatalogEntry(r[i]).requirement == r[i].requirement;
    }
  }

  lemma AppendAssoc(a: seq<PointsEntry>, b: seq<PointsEntry>, c: seq<PointsEntry>)
    ensures (a + b) + c == a + (b + c)
  {
  }

  /** The bookkeeping of the unlock loop after its first `i` entries: the
      catalog so far, the batch so far, and the points and history entries
      credited for that batch. */
  ghost predicate UnlockedSoFar(prev: seq<Achievement>, i: nat, snapshot: UserProgress, now: int,
                                next: seq<Achievement>, batch: seq<Achievement>,
                                progress: UserProgress, history: seq<PointsEntry>, history0: seq<PointsEntry>)
  {
    && i <= |prev|
    && next == EvaluateAll(prev[..i], snapshot, now)
    && batch == NewlyUnlocked(prev[..i], snapshot, now)
    && progress == WithPoints(snapshot, PointsOf(batch))
    && history == history0 + AwardEntries(batch, now)
  }

  /** One step of the unlock loop keeps its bookkeeping. */
  lemma UnlockedSoFarStep(prev: seq<Achievement>, i: nat, snapshot: UserProgress, now: int,
                          next: seq<Achievement>, batch: seq<Achievement>,
                          progress: UserProgress, history: seq<PointsEntry>, history0: seq<PointsEntry>,
                          updated: Achievement, progress': UserProgress, history': seq<PointsEntry>)
    requires UnlockedSoFar(prev, i, snapshot, now, next, batch, progress, history, history0)
    requires i < |prev| && updated == Evaluate(prev[i], snapshot, now)
    requires updated != prev[i] ==>
      && progress' == WithPoints(progress, prev[i].points)
      && history' == history + [PointsEntry(now, prev[i].points, "Achievement: " + prev[i].title)]
    requires updated == prev[i] ==> progress' == progress && history' == history
    ensures UnlockedSoFar(prev, i + 1, snapshot, now, next + [updated],
                          if updated != prev[i] then batch + [updated] else batch, progress', history', history0)
  {
    EvaluateStep(prev, i, snapshot, now);
    NewlyUnlockedStep(prev, i, snapshot, now);
    if updated != prev[i] {
      PointsOfAppend(batch, updated, now);
      AppendAssoc(history0, AwardEntries(batch, now), [PointsEntry(now, updated.points, "Achievement: " + updated.title)]);
    }
  }

  class ProgressStore {
    var userProgress: UserProgress
    var achievements: seq<Achievement>
    var dailyActivities: seq<DailyActivity>
    var pointsHistory: seq<PointsEntry>

    /** One record per day, the catalog kept, total points equal to the sum
        of the history, and the two counters no operation writes still zero. */
    ghost predicate Valid()
      reads this
    {
      && DatesUnique(dailyActivities)
      && CatalogKept(achievements)
      && userProgress.totalPoints == HistoryTotal(pointsHistory)
      && userProgress.longestStreak == 0
      && userProgress.programsCompleted == 0
    }

    constructor (now: int, month: int, year: int)
      ensures Valid()
      ensures userProgress == InitialProgress(now, month, year)
      ensures achievements == DefaultAchievements
      ensures dailyActivities == [] && pointsHistory == []
    {
      userProgress := InitialProgress(now, month, year);
      achievements := DefaultAchievements;
      dailyActivities := [];
      pointsHistory := [];
      CatalogThresholdsPositive();
    }

    /** Record today's activity and fold its amounts into the aggregate. The
        streak is computed from the list as it was before this update. */
    method UpdateProgress(patch: ActivityPatch, today: int, now: int)
      requires Valid()
      modifies this
      ensures Valid()
      ensures dailyActivities == RecordToday(old(dailyActivities), today, patch)
      ensures userProgress == Advance(old(userProgress), patch, StreakLength(old(dailyActivities), today), now)
      ensures achievements == old(achievements) && pointsHistory == old(pointsHistory)
    {
      var todayActivity := GetTodayActivity(dailyActivities, today);
      var updatedActivity := MergeActivity(todayActivity, patch, today);
      var streak := CalculateStreak(dailyActivities, today);
      RecordTodayKeepsDatesUnique(dailyActivities, today, patch);
      dailyActivities := Filter(dailyActivities, NotOn(today)) + [updatedActivity];

      userProgress := AdvanceProgress(userProgress, patch, streak, now);
    }

    /** Credit points: total points and experience rise by the same amount,
        the level is left as it was, and one history entry is appended. */
    method AddPoints(points: int, reason: string, now: int)
      requires Valid()
      modifies this
      ensures Valid()
      ensures userProgress == WithPoints(old(userProgress), points)
      ensures pointsHistory == old(pointsHistory) + [PointsEntry(now, points, reason)]
      ensures achievements == old(achievements) && dailyActivities == old(dailyActivities)
    {
      HistoryTotalAppend(pointsHistory, [PointsEntry(now, points, reason)]);
      userProgress := WithPoints(userProgress, points);
      pointsHistory := pointsHistory + [PointsEntry(now, points, reason)];
    }

    /** The callback applied to each catalog entry: an unlocked entry is
        returned as it is; a locked one whose threshold the snapshot meets is
        returned unlocked and stamped, and its points are credited. */
    method UnlockIfEarned(achievement: Achievement, snapshot: UserProgress, now: int) returns (result: Achievement)
      requires Valid()
      modifies this
      ensures Valid()
      ensures result == Evaluate(achievement, snapshot, now)
      ensures result != achievement ==>
        && userProgress == WithPoints(old(userProgress), achievement.points)
        && pointsHistory == old(pointsHistory) + [PointsEntry(now, achievement.points, "Achievement: " + achievement.title)]
      ensures result == achievement ==> userProgress == old(userProgress) && pointsHistory == old(pointsHistory)
      ensures achievements == old(achievements) && dailyActivities == old(dailyActivities)
    {
      if achievement.isUnlocked {
        return achievement;
      }
      var shouldUnlock := ShouldUnlock(achievement, snapshot);
      if shouldUnlock {
        var unlockedAchievement := achievement.(isUnlocked := true, unlockedAt := Some(now));
        AddPoints(achievement.points, "Achievement: " + achievement.title, now);
        return unlockedAchievement;
      }
      return achievement;
    }

    /** Unlock every locked achievement whose threshold the current progress
        meets, award its points through `AddPoints`, and return the batch. */
    method CheckAndUnlockAchievements(now: int) returns (newlyUnlocked: seq<Achievement>)
      requires Valid()
      modifies this
      ensures Valid()
      ensures achievements == EvaluateAll(old(achievements), old(userProgress), now)
      ensures newlyUnlocked == NewlyUnlocked(old(achievements), old(userProgress), now)
      ensures userProgress == WithPoints(old(userProgress), PointsOf(newlyUnlocked))
      ensures pointsHistory == old(pointsHistory) + AwardEntries(newlyUnlocked, now)
      ensures dailyActivities == old(dailyActivities)
      ensures forall later :: NewlyUnlocked(achievements, userProgress, later) == []
      ensures forall later :: EvaluateAll(achievements, userProgress, later) == achievements
    {
      var snapshot := userProgress;
      var prev := achievements;
      var next: seq<Achievement> := [];
      newlyUnlocked := [];
      for i := 0 to |prev|
        invariant UnlockedSoFar(prev, i, snapshot, now, next, newlyUnlocked, userProgress, pointsHistory, old(pointsHistory))
        invariant achievements == prev && dailyActivities == old(dailyActivities)
        invariant Valid()
      {
        ghost var progress, history := userProgress, pointsHistory;
        var updated := UnlockIfEarned(prev[i], snapshot, now);
        UnlockedSoFarStep(prev, i, snapshot, now, next, newlyUnlocked, progress, history, old(pointsHistory),
                          updated, userProgress, pointsHistory);
        if updated != prev[i] {
          newlyUnlocked := newlyUnlocked + [updated];
        }
        next := next + [updated];
      }
      assert prev[..|prev|] == prev;
      EvaluateAllKeepsCatalog(prev, snapshot, now);
      achievements := next;
      forall later: int
        ensures NewlyUnlocked(achievements, userProgress, later) == []
        ensures EvaluateAll(achievements, userProgress, later) == achievements
      {
        EvaluateAllIdempotent(prev, snapshot, userProgress, now, later);
      }
    }

    /** Replace the weekly target, keeping the minutes so far and the week start. */
    method UpdateWeeklyGoal(target: int)
      requires Valid()
      modifies this
      ensures Valid()
      ensures userProgress == old(userProgress).(weeklyGoal := old(userProgress).weeklyGoal.(target := target))
      ensures achievements == old(achievements) && dailyActivities == old(dailyActivities)
      ensures pointsHistory == old(pointsHistory)
    {
      userProgress := userProgress.(weeklyGoal := userProgress.weeklyGoal.(target := target));
    }
  }
}
