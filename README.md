# Fitness app state stores, modelled in Dafny

This project models the client-side state stores of a fitness-video web
application. They are four pieces of code that hold and update the user's
data in the browser:

- **Subscription store** (`Subscription`, `subscription.dfy`). A catalog of
  three plans (free, standard, premium) with per-feature quotas. The current
  plan, the subscription record and usage counters. Subscribing, cancelling,
  changing plan, and the feature-access and remaining-quota queries.
- **Video store** (`Video`, `video.dfy`). One progress record per
  (video, program) pair, updated in place or appended. The player
  preferences, the current video, and the queries for total watch time,
  completed count and per-program completion.
- **Progress store** (`Progress`, `progress.dfy`). The gamified progress
  aggregate (points, experience, level, streak, weekly goal, monthly stats),
  one activity record per day, a fixed catalog of eight achievements, and an
  append-only points history. Also the streak computation and the
  achievement unlock pass.
- **Mock authentication service** (`MockAuth`, `auth.dfy`). A user table
  seeded with two accounts, a login that accepts two fixed credential pairs,
  registration that appends to the table, and a prefix-only token check.

Each store is a class. Its fields are the store's state; its methods are the
operations that change that state, with `modifies this`. Each method is
specified by a pure function of the old state (`Upsert`, `RecordToday`,
`Advance`, `EvaluateAll`, ...), and the properties the source promises are
proved about those functions as lemmas. Each class's `Valid()` is the
invariant every operation keeps. The two loops in the source are methods
with loop invariants, proved against a function:

- `CalculateStreak` is proved against `StreakLength`.
- `CheckAndUnlockAchievements` is proved against `EvaluateAll` and `NewlyUnlocked`.

Supporting modules: `Options` (an `Option` type with `GetOr`, standing for
JavaScript's `undefined`/`null` and `x || default`) and `Seqs` (a
`Filter` and a `Find` with their lemmas).

Clock readings are parameters:

- `now` stands for `new Date()` / `Date.now()` and is an abstract
  timestamp.
- `today` is the current date as a UTC day number (day 0 is 1970-01-01).
- `timeOfDay` is the milliseconds since that midnight.
- Calendar shifts the model does not compute (`setMonth(+1)`,
  `setFullYear(+1)`, `+365 days`) are recorded symbolically as a `Date` value.

Money is kept in cents: 19.99 becomes 1999.

The streak is modelled as the code computes it. The loop in
`calculateStreak` compares each record's distance from the previously
accepted record with the streak counted so far. So accepted records must lie
0, 1, 3, 6, ... days before today:

- Three consecutive days give 2 (`ThreeConsecutiveDaysGiveTwo`).
- Today, yesterday and three days ago give 3 (`TriangularGapsGiveThree`).

The "Consistency" achievement of the catalog reads "Maintain a 3-day
workout streak". Under this rule its threshold of 3 is reached by activity
today, yesterday and three days ago, not by three consecutive days.

## Model

| member | source | states |
|---|---|---|
| Seqs.Find | src/contexts/SubscriptionContext.tsx:145 | the element found is in the list and passes the test; none is found exactly when no element passes it (used for the plan lookup, today's record at src/contexts/ProgressContext.tsx:270 and the email lookup at src/lib/mock-auth.ts:68) |
| Seqs.FindIsFirst | src/lib/mock-auth.ts:68 | a match with no earlier match is exactly the one found |
| Subscription.CatalogLookup | src/contexts/SubscriptionContext.tsx:40-102 | exactly the ids free, standard and premium are known, each naming its own plan |
| Subscription.CheckAccess | src/contexts/SubscriptionContext.tsx:229-257 | no plan denies everything; a metered feature is granted iff its limit is unlimited or usage is below it; premium features iff the plan is premium; any other feature is granted |
| Subscription.GetRemainingUsage | src/contexts/SubscriptionContext.tsx:259-278 | unlimited iff the limit is; otherwise remaining plus used equals the limit, floored at zero when usage exceeds it; no plan or an unmetered feature gives 0 |
| Subscription.AccessIffQuotaRemains | src/contexts/SubscriptionContext.tsx:229-278 | for a metered feature, access is granted exactly when the remaining quota is not zero |
| Subscription.FreshQuotaIsWholeLimit | src/contexts/SubscriptionContext.tsx:259-278 | with the counters reset, the remaining quota of each metered feature is the plan's whole limit |
| Subscription.OnlyPremiumGrantsPremiumFeatures | src/contexts/SubscriptionContext.tsx:245-252 | among catalog plans, a premium feature is granted exactly by the premium plan |
| Subscription.AccessDependsOnlyOnPlan | src/contexts/SubscriptionContext.tsx:229-243 | with the counters at zero, a metered feature is granted iff its limit is not zero; on the free plan only programs are granted |
| Subscription.EndDateFor | src/contexts/SubscriptionContext.tsx:148-153 | the period ends one month after the start for monthly billing and one year after it for yearly billing |
| Subscription.SubscriptionStore.constructor | src/contexts/SubscriptionContext.tsx:118-136 | after mounting: the free plan, an active free subscription running 365 days without auto-renewal, counters at zero |
| Subscription.SubscriptionStore.SubscribeToPlan | src/contexts/SubscriptionContext.tsx:138-178 | succeeds iff the plan id is in the catalog; on success the plan, an active auto-renewing subscription for the billing period and zeroed counters; on failure nothing changes |
| Subscription.SubscriptionStore.CancelSubscription | src/contexts/SubscriptionContext.tsx:180-202 | always reports success; an existing subscription becomes cancelled without auto-renewal, everything else is kept |
| Subscription.SubscriptionStore.UpdateSubscription | src/contexts/SubscriptionContext.tsx:204-227 | succeeds iff the plan exists and a subscription exists; then only the plan and the subscription's plan id change; counters never change |
| Video.FindIndex | src/contexts/VideoContext.tsx:116-118 | the index of the first record for the pair, or -1 exactly when there is none |
| Video.GetVideoProgress | src/contexts/VideoContext.tsx:139-141 | the record returned is in the list and belongs to the pair; none exactly when the pair has no record |
| Video.Overlay | src/contexts/VideoContext.tsx:120-127 | the record belongs to the pair; every field the patch supplies is the patch's, every other field is the base's |
| Video.Upsert | src/contexts/VideoContext.tsx:114-137 | the list keeps its length when the pair has a record and grows by one otherwise; records of other pairs keep their positions |
| Video.UpsertShape | src/contexts/VideoContext.tsx:114-137 | an existing record is replaced at its index by the overlay, otherwise exactly one seeded record is appended; every other index is unchanged |
| Video.UpsertKeepsKeysUnique | src/contexts/VideoContext.tsx:114-137 | updating never creates a second record for a pair |
| Video.UpsertThenGet | src/contexts/VideoContext.tsx:114-141 | reading the pair after an update gives the old record (or the zero/now seed) overlaid with the supplied fields |
| Video.UpsertLeavesOtherPairs | src/contexts/VideoContext.tsx:114-141 | an update does not change what any other pair reads back |
| Video.MarkCompleteEffect | src/contexts/VideoContext.tsx:143-150 | after marking complete the pair reads back completed, stamped now, with its earlier times |
| Video.MergeState | src/contexts/VideoContext.tsx:152-154 | an empty patch keeps the preferences; every supplied field is the patch's and every absent field keeps its old value |
| Video.MergeStateIdempotent | src/contexts/VideoContext.tsx:152-154 | merging the same preference patch twice equals merging it once |
| Video.TotalWatchTime | src/contexts/VideoContext.tsx:156-160 | the total is non-negative when every record contributes a non-negative time |
| Video.TotalWatchTimeAppend | src/contexts/VideoContext.tsx:156-160 | the total of a concatenation is the sum of the totals |
| Video.TotalWatchTimeUpdate | src/contexts/VideoContext.tsx:156-160 | replacing one record changes the total by the difference of the two contributions |
| Video.TotalWatchTimeAfterUpsert | src/contexts/VideoContext.tsx:114-160 | after an update the total loses the pair's old contribution (none if new) and gains its new one |
| Video.GetCompletedVideosCount | src/contexts/VideoContext.tsx:162-164 | the count is at most the number of records and equals it exactly when every record is completed |
| Video.CompletedCountAfterMarkComplete | src/contexts/VideoContext.tsx:143-164 | marking complete adds one to the count unless the pair was already complete |
| Video.GetProgramProgress | src/contexts/VideoContext.tsx:166-173 | total is the number of the program's records, completed is the completed count among them (at most total), and the percentage is their share |
| Video.Percentage | src/contexts/VideoContext.tsx:170 | 0 for an empty program; otherwise percentage times total equals completed times 100, and it lies in [0, 100] |
| Video.PercentageBounds | src/contexts/VideoContext.tsx:170 | the share in percent is non-negative, scales back to the completed count and is at most 100 |
| Video.WatchThenCompleteScenario | src/contexts/VideoContext.tsx:114-164 | recording a 600-second video and marking it complete gives 600 seconds watched and one completed video |
| Video.VideoStore.constructor | src/contexts/VideoContext.tsx:62-76 | no progress records, the default player preferences, no current video |
| Video.VideoStore.UpdateVideoProgress | src/contexts/VideoContext.tsx:114-137 | the list becomes the upsert of the old list, one record per pair is kept, nothing else changes |
| Video.VideoStore.MarkVideoComplete | src/contexts/VideoContext.tsx:143-150 | the update with completed set and lastWatched now |
| Video.VideoStore.UpdateVideoState | src/contexts/VideoContext.tsx:152-154 | the preferences become the old ones with the supplied fields replaced; nothing else changes |
| Video.VideoStore.SetCurrentVideo | src/contexts/VideoContext.tsx:72-77 | only the current video changes |
| Progress.CatalogThresholdsPositive | src/contexts/ProgressContext.tsx:86-167 | the catalog has eight entries with distinct ids; every threshold is at least one and every entry starts locked |
| Progress.InitialProgress | src/contexts/ProgressContext.tsx:172-194 | level 1 consistent with zero experience, every counter zero, no last activity, a 150-minute weekly target starting now, and zeroed statistics for the given month |
| Progress.WithPoints | src/contexts/ProgressContext.tsx:391-397 | points and experience rise by the amount, the level fields are kept, and nothing else changes |
| Progress.LevelFor | src/contexts/ProgressContext.tsx:318-319 | the level is the one whose 100-point band contains the experience |
| Progress.ExperienceToNext | src/contexts/ProgressContext.tsx:318-323 | between 1 and 100 points remain, and adding them reaches a multiple of 100 |
| Progress.LevelExamples | src/contexts/ProgressContext.tsx:172-176 | 0 experience is level 1 with 100 to go; 250 is level 3 with 50 to go |
| Progress.AddPointsLeavesLevelStale | src/contexts/ProgressContext.tsx:391-397 | the initial state's level is consistent, but after adding 150 points the level is still 1 |
| Progress.GetTodayActivity | src/contexts/ProgressContext.tsx:268-277 | dated today; today's stored record when there is one, otherwise an all-zero record |
| Progress.TodayActivityIsTheRecord | src/contexts/ProgressContext.tsx:268-277 | with one record per day, today's activity is that record |
| Progress.MergeActivity | src/contexts/ProgressContext.tsx:283-287 | dated today; every supplied field replaces the base's, every absent one is the base's |
| Progress.RecordToday | src/contexts/ProgressContext.tsx:290-293 | at most one record longer than before, never empty, and the last record is dated today |
| Progress.RecordTodayShape | src/contexts/ProgressContext.tsx:283-293 | after recording, the other days' records keep their order and today's merged record is last and alone |
| Progress.RecordTodayKeepsDatesUnique | src/contexts/ProgressContext.tsx:290-293 | recording keeps at most one record per day |
| Progress.RecordTodayThenGet | src/contexts/ProgressContext.tsx:279-293 | reading today back gives the old record with the supplied fields overwritten, not added |
| Progress.RecordTodayLeavesOtherDays | src/contexts/ProgressContext.tsx:290-293 | recording today does not change what any other day reads back |
| Progress.Weekday | src/contexts/ProgressContext.tsx:410 | the weekday is in 0..6 |
| Progress.WeekStart | src/contexts/ProgressContext.tsx:409-410 | the week starts on a Sunday at most six days back |
| Progress.MonthStart | src/contexts/ProgressContext.tsx:419-420 | the month starts dayOfMonth-1 days back |
| Progress.MidnightNotBefore | src/contexts/ProgressContext.tsx:412-415 | a record's midnight is not before the start instant iff it lies on a later day, or on the start day at midnight |
| Progress.GetWeeklyActivity | src/contexts/ProgressContext.tsx:408-416 | exactly the records after the week's Sunday, plus Sunday's own only at midnight |
| Progress.GetMonthlyActivity | src/contexts/ProgressContext.tsx:418-426 | exactly the records after the first of the month, plus the first's own only at midnight |
| Progress.InsertKeepsOrder | src/contexts/ProgressContext.tsx:330 | inserting (`InsertNewestFirst`) into a newest-first list keeps it newest first and adds exactly that record |
| Progress.SortIsOrderedPermutation | src/contexts/ProgressContext.tsx:330 | the insertion sort (`SortNewestFirst`) returns its input reordered newest first |
| Progress.SortThreeAscending | src/contexts/ProgressContext.tsx:330 | three records stored oldest first come out newest first |
| Progress.QualifyingRun | src/contexts/ProgressContext.tsx:334-344 | every record in the run qualifies and the record after it does not |
| Progress.StreakLength | src/contexts/ProgressContext.tsx:329-347 | the streak never exceeds the number of records |
| Progress.RunIsLongestPrefix | src/contexts/ProgressContext.tsx:334-344 | a qualifying prefix stopped by a non-qualifying record (or the end) is the run |
| Progress.CalculateStreak | src/contexts/ProgressContext.tsx:329-347 | the loop's count is the length of the run of qualifying newest-first records |
| Progress.StreakGapsGrow | src/contexts/ProgressContext.tsx:336-341 | the j-th accepted record lies j days before the one accepted before it |
| Progress.ThreeConsecutiveDaysGiveTwo | src/contexts/ProgressContext.tsx:329-347 | activity on today, yesterday and the day before gives a streak of 2 |
| Progress.TriangularGapsGiveThree | src/contexts/ProgressContext.tsx:329-347 | activity today, yesterday and three days ago gives a streak of 3 |
| Progress.Advance | src/contexts/ProgressContext.tsx:296-326 | the totals and the month's videos, watch time and programs started grow by the supplied amounts, the month and year are kept, the streak is the one given, the last activity is now, and the level matches the experience |
| Progress.AdvanceProgress | src/contexts/ProgressContext.tsx:296-326 | the updater's step-by-step changes, each amount added only when supplied and non-zero, give exactly the aggregate `Advance` describes |
| Progress.AdvanceEffects | src/contexts/ProgressContext.tsx:296-326 | after an update the level matches the experience, whole minutes (rounded down) go to the weekly goal, and points, longest streak and programs completed are untouched |
| Progress.ShouldUnlock | src/contexts/ProgressContext.tsx:356-371 | a `consecutive_days` requirement is never met |
| Progress.ShouldUnlockMonotone | src/contexts/ProgressContext.tsx:356-371 | with every counter at least as high, a met threshold stays met |
| Progress.Evaluate | src/contexts/ProgressContext.tsx:354-384 | static fields kept; an unlocked entry is returned as it is; a locked one is unlocked iff its threshold is met, and then stamped now |
| Progress.EvaluateAll | src/contexts/ProgressContext.tsx:352-388 | every catalog entry is evaluated on its own, in order |
| Progress.EvaluateAllEffects | src/contexts/ProgressContext.tsx:353-385 | static fields are kept, unlocked entries are untouched, and a locked entry is unlocked and stamped now iff its threshold is met |
| Progress.NewlyUnlocked | src/contexts/ProgressContext.tsx:373-379 | the batch is no longer than the catalog and holds only entries unlocked and stamped now |
| Progress.NewlyUnlockedIsUnlockedBy | src/contexts/ProgressContext.tsx:350-389 | the batch is the catalog's evaluation restricted to the entries that went from locked to unlocked, in catalog order |
| Progress.NewlyUnlockedComplete | src/contexts/ProgressContext.tsx:373-379 | every locked entry whose threshold is met is in the batch, unlocked and stamped |
| Progress.NewlyUnlockedSound | src/contexts/ProgressContext.tsx:373-379 | every batch entry is the evaluation of an entry that was locked and is now unlocked |
| Progress.AwardEntries | src/contexts/ProgressContext.tsx:380 | one history entry per unlocked achievement, with its points and the reason "Achievement: " plus its title |
| Progress.AwardEntriesTotal | src/contexts/ProgressContext.tsx:380-405 | the history entries for a batch record exactly the batch's points |
| Progress.EvaluateAllIdempotent | src/contexts/ProgressContext.tsx:349-389 | a second pass against progress with the same four counters (points and experience may differ, as after the first pass credited its awards) changes nothing and unlocks nothing |
| Progress.UnlockedOnlyGrows | src/contexts/ProgressContext.tsx:452 | every achievement unlocked before a pass is still unlocked after it |
| Progress.UnlockedAchievements | src/contexts/ProgressContext.tsx:452 | exactly the unlocked entries |
| Progress.FirstVideoUnlocksFirstSteps | src/contexts/ProgressContext.tsx:349-389 | after one completed video, the fresh catalog unlocks exactly "First Steps", worth 50 points |
| Progress.EvaluateAllKeepsCatalog | src/contexts/ProgressContext.tsx:349-389 | a pass keeps the catalog, the stamp-iff-unlocked link, and the program and consecutive-day entries locked |
| Progress.GetProgressStats | src/contexts/ProgressContext.tsx:438-448 | total workouts are the videos completed, the mean session length times workouts is the watch time (0 with no workouts), plus the fixed "Yoga" and 15 |
| Progress.ProgressStore.constructor | src/contexts/ProgressContext.tsx:172-198 | the initial aggregate, the locked catalog, no activities and no history |
| Progress.ProgressStore.UpdateProgress | src/contexts/ProgressContext.tsx:279-327 | today's record is merged and moved last, and the aggregate is advanced with the streak of the list before the update; the invariant is kept |
| Progress.ProgressStore.AddPoints | src/contexts/ProgressContext.tsx:391-406 | points and experience rise by the same amount, the level is unchanged, and one history entry is appended after the old ones |
| Progress.ProgressStore.UnlockIfEarned | src/contexts/ProgressContext.tsx:353-384 | returns the evaluated entry; credits its points and logs them exactly when it was unlocked |
| Progress.ProgressStore.CheckAndUnlockAchievements | src/contexts/ProgressContext.tsx:349-389 | the catalog becomes its evaluation, the batch is returned, and points and history grow by the batch's awards; a later call, at any time, unlocks and awards nothing |
| Progress.ProgressStore.UpdateWeeklyGoal | src/contexts/ProgressContext.tsx:428-436 | only the weekly target changes |
| MockAuth.NatToString | src/lib/mock-auth.ts:75 | a non-empty run of decimal digits, at least two for numbers from 10 up |
| MockAuth.NatToStringInjective | src/lib/mock-auth.ts:75 | different numbers have different decimal strings |
| MockAuth.IssueToken | src/lib/mock-auth.ts:50 | the token starts with the mock prefix, followed by the time in decimal |
| MockAuth.IssueTokenInjective | src/lib/mock-auth.ts:50 | tokens issued at different times differ |
| MockAuth.InitialTableValid | src/lib/mock-auth.ts:7-40 | the seeded table satisfies the table invariant |
| MockAuth.IdsDistinct | src/lib/mock-auth.ts:63-95 | in a table that keeps the invariant, ids are pairwise distinct |
| MockAuth.NewUser | src/lib/mock-auth.ts:74-89 | the given name, email and creation time, the id as decimal text, the free tier, no avatar, and an all-zero, all-empty progress summary |
| MockAuth.Login | src/lib/mock-auth.ts:43-61 | succeeds iff the demo or test credential pair is given, returning the first or second user and a fresh token; otherwise the hint error and no user or token |
| MockAuth.VerifyToken | src/lib/mock-auth.ts:97-108 | valid iff the token is non-empty and has the mock prefix, and then always the first user |
| MockAuth.LoginTokensVerify | src/lib/mock-auth.ts:48-58 | every token a successful login issues passes the token check |
| MockAuth.TestLoginTokenResolvesToDemo | src/lib/mock-auth.ts:54-105 | the test account's login token resolves to the demo account |
| MockAuth.RegisteredUsersCannotLogIn | src/lib/mock-auth.ts:48-60 | no registered account can log in, whatever the password |
| MockAuth.MockUserTable.constructor | src/lib/mock-auth.ts:7-40 | the table holds the demo and test users |
| MockAuth.MockUserTable.Register | src/lib/mock-auth.ts:63-95 | a taken email fails and leaves the table alone; a new one appends one free user with id length+1 and returns it with a fresh token; emails stay distinct and ids follow positions |

## Left out

- Persistence: the localStorage loads and saves in every store and their JSON parse errors. Each store starts from its initial state.
- The simulated API latency (`setTimeout`) and the `isLoading` flag in the subscription store and the auth service. The `try`/`catch` branches that catch nothing in practice.
- React scheduling. Each operation is one synchronous transition, and a `setState` updater runs at once. So `checkAndUnlockAchievements` returns the batch it builds. React may run that updater later, in which case the returned list would still be empty.
- The shallow copy in `updateProgress`: nested `weeklyGoal` and `monthlyStats` are mutated in place. The model treats them as fresh values, so a double-invoked updater (development mode) double counting is not modelled.
- Time zones. Dates are UTC day numbers and the week starts on Sunday in UTC.
- The streak uses whole days. The fractional part of the first day difference is dropped, as `Math.floor` does for a record dated today.
- Calendar arithmetic: month-end overflow of `setMonth(+1)` and the exact end instants are recorded symbolically, not computed.
- Spread semantics for explicit `undefined`: in `{...existing, ...progress}` (src/contexts/VideoContext.tsx:120-127), `{...prev, ...state}` (src/contexts/VideoContext.tsx:153) and `{...todayActivity, ...activity}` (src/contexts/ProgressContext.tsx:283-287), a field passed as `undefined` overwrites the stored value (a `currentTime: undefined` then makes `getTotalWatchTime` yield NaN). In the model an absent field (`None`) always keeps the old value.
- Fractional times: `currentTime`, `duration` and `timeWatched` are JavaScript numbers in the source and whole seconds (`int`) in the model. The in-repository callers pass whole seconds.
- Floating point: plan prices are whole cents. Volume, playback rate, the percentages and the mean session length of `getProgressStats` are exact reals.
- `getPointsHistory` and the `unlockedAt`/`lastWatched` Date objects. The history is the store's field, and dates are timestamps.
- The login and auth context providers and all UI pages. They are React and localStorage wrappers around these stores.
- Progress.ProgressStore.Valid: `longestStreak` and `programsCompleted` are kept at 0 because no operation of the store writes them. So the "Program Pioneer" achievement (and any `consecutive_days` one) can never unlock.
- Subscription.SubscriptionStore.Valid: the usage counters are kept at zero because no operation of the store increments them.
- MockAuth.Login and MockAuth.VerifyToken take the table as a sequence with at least two (one) entries. The service's table always holds the two seeded users.
