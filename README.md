# Lead-prioritisation engine of the ad-sales CRM, in Dafny

The CRM helps a sales team sell advertising in regional publications
("titles"). Its scheduled edge functions recompute lead signals from the
`accounts`, `deals`, `emails_sent` and `titles` tables:

- `recalculate-waffling` computes a 0-100 hesitation score per account. The score has four capped parts: contact recency, decision certainty, stalled active deals and email reply rate. Scores that moved by at least 5 are written back.
- `detect-at-risk` flags an open deal when at least one of four rules fires. A flag is written back when it changes.
- `deadline-alerts` lists the titles whose deadline falls within a window of days. Each title gets an urgency, revenue and page gaps, and a percent to goal.
- `stale-contacts` lists the accounts not contacted within a threshold. Each is scored by priority and ranked.
- `run-all-automations` calls the five jobs in order, collects their errors and sums up their counts.

The model also covers the front-end rules that read the same signals:

- the health panel of an account page: risk signals, health score, labels and colours;
- the fallback insight of the account summary card;
- the helper functions over the demonstration data;
- the CSV export;
- the template variables of the quick email dialog.

The modules follow the source files:

| module | file |
|---|---|
| `Crm` | rows of the database schema, time and rounding helpers, decimal text |
| `Seqs` | filtering, sums, joining and a stable sort, shared by the jobs |
| `Store` | the `accounts` and `deals` tables as arrays, with the two updates the jobs issue |
| `RecalculateWaffling` | `supabase/functions/recalculate-waffling/index.ts` |
| `DetectAtRisk` | `supabase/functions/detect-at-risk/index.ts` |
| `DeadlineAlerts` | `supabase/functions/deadline-alerts/index.ts` |
| `StaleContacts` | `supabase/functions/stale-contacts/index.ts` |
| `RunAllAutomations` | `supabase/functions/run-all-automations/index.ts` |
| `AccountHealth` | `src/components/account/AccountHealthSection.tsx` |
| `AccountSummary` | `src/components/account/AIAccountSummary.tsx` (fallback insight) |
| `MockData` | `src/data/mockData.ts` (helper functions) |
| `CsvExport` | `src/lib/exportUtils.ts` |
| `QuickEmail` | `src/components/email/QuickEmailDialog.tsx` (`applyTemplateVariables`) |

## How the model is built

- **Time.** Instants are integers in milliseconds. A `date` column (`last_contact_date`, `deadline`) is a UTC day number, and `new Date(day)` is that day's UTC midnight. `Math.floor` and `Math.ceil` of a millisecond difference over a day are written out, and lemmas turn them into calendar-day differences. The clock is a parameter of every job.
- **Tables.**
  - What a job reads is a snapshot: a sequence of rows or, for the two tables the jobs write, an array of `Store.Database`.
  - Each job's per-row loop is a method proved equal to a specification function.
  - The write loop is a method that updates the array row by row. Whether the i-th write reports an error is the oracle `ok(i)`. A failed write changes nothing.
  - A read error is an `Option<string>` input, and it becomes the job's `Failed` result.
- **Request bodies.** `Json(days_threshold)` or `Unreadable`. A threshold is taken only when present and non-zero (JavaScript truthiness); otherwise the job's default applies.
- **Ordering.** A query's `.order(...)` is a stable insertion sort (`Seqs.SortBy`), proved sorted, a permutation and stable. The stale-contacts query puts never-contacted rows first, then the rest by ascending day. Its client-side sort by descending priority is stable too (`Array.prototype.sort`).
- **Certainty score.** The code awards firm certainty 10 points, although `certaintyScores` lists 0 for firm: `certaintyScores[...] || 10` turns that 0 into 10. The model follows the code (`RecalculateWaffling.CertaintyFactor`, `RecalculateWaffling.ScenarioFirmEngaged`).
- **Stale-contact priority.** The `0.3 * waffling` term makes the priority fractional before the final `Math.round`. The model keeps it exactly, in tenths.

## Model

| member | source | states |
|---|---|---|
| `Crm.DaysSince` | supabase/functions/recalculate-waffling/index.ts:51 | the whole days elapsed, rounded down: `d` days fit within the difference and `d + 1` do not |
| `Crm.UtcDay` | supabase/functions/deadline-alerts/index.ts:40 | the calendar day whose UTC midnight is at or before the instant, with the next midnight after it |
| `Crm.CeilDays` | supabase/functions/deadline-alerts/index.ts:48 | `Math.ceil` of a millisecond span in days: the least `d` with the span at most `d` days |
| `Crm.DaysSinceMidnight` | supabase/functions/stale-contacts/index.ts:66-69 | whole days since a date column's midnight equal the calendar-day difference |
| `Crm.CeilDaysToMidnight` | supabase/functions/deadline-alerts/index.ts:47-48 | days remaining, rounded up, to a deadline's midnight equal the calendar-day difference |
| `Crm.UtcDayShift` | supabase/functions/deadline-alerts/index.ts:33 | shifting an instant by whole days shifts its UTC day by as many days |
| `Crm.DaysSinceContact` | src/components/account/AccountHealthSection.tsx:30-32 | null without a contact date, else the calendar days since it |
| `Crm.RoundRatio` | supabase/functions/deadline-alerts/index.ts:77 | `Math.round(p / q)`: the nearest integer, with halves rounded up |
| `Crm.DaysThreshold` | supabase/functions/deadline-alerts/index.ts:22-30 | the body's threshold when present and non-zero, else the default; an unreadable body gives the default |
| `Crm.NatToString` | supabase/functions/detect-at-risk/index.ts:42 | template-literal text of a count: non-empty and all decimal digits |
| `Crm.IntToString` | supabase/functions/detect-at-risk/index.ts:49 | template-literal text of an integer: digits, after a minus sign when negative |
| `Crm.DecimalRoundTrip` | src/lib/exportUtils.ts:23 | reading the decimal text of a natural number back gives the number |
| `Seqs.Filter` | src/data/mockData.ts:145-146 | `Array.prototype.filter`: no longer than the input, holding exactly the input's elements that satisfy the predicate |
| `Seqs.FilterPartition` | supabase/functions/stale-contacts/index.ts:39-40 | two filters by disjoint conditions hold together, as a multiset, the filter by either condition |
| `Seqs.SortBy` | supabase/functions/deadline-alerts/index.ts:42 | `.order(...)` and `.sort(...)`: as long as the input and holding the same elements; the lemmas below say sorted, permutation, stable |
| `Seqs.SortSorted` | supabase/functions/deadline-alerts/index.ts:42 | the sorted sequence ascends by key |
| `Seqs.SortPermutes` | supabase/functions/deadline-alerts/index.ts:42 | the sorted sequence is a permutation of the input |
| `Seqs.SortStable` | supabase/functions/stale-contacts/index.ts:100 | elements of equal key keep their input order |
| `Store.CountOk` | supabase/functions/recalculate-waffling/index.ts:110-121 | the count of writes without an error is at most the number of writes, all of them when all succeed and none when none do |
| `Store.Database.constructor` | supabase/functions/recalculate-waffling/index.ts:33-40 | the tables hold exactly the given rows |
| `Store.Database.UpdateWafflingScore` | supabase/functions/recalculate-waffling/index.ts:112-115 | every account row with the id gets the score and no other row changes |
| `Store.Database.UpdateAtRiskFlag` | supabase/functions/detect-at-risk/index.ts:77-80 | every deal row with the id gets the flag and no other row changes |
| `RecalculateWaffling.RecencyFactor` | supabase/functions/recalculate-waffling/index.ts:49-55 | 30 without a contact date; else twice the days since contact, capped at 30; full points from 15 days; negative only for a future date |
| `RecalculateWaffling.CertaintyFactor` | supabase/functions/recalculate-waffling/index.ts:58-64 | 20 for waffling, 25 for at_risk, 10 for everything else, firm and null included |
| `RecalculateWaffling.DealFactor` | supabase/functions/recalculate-waffling/index.ts:67-81 | 25 without active deals; else `Math.min(10 × stalled, 25)` over the active deals without activity in more than 7 whole days (or with none); 0 exactly when active deals exist and none is stalled |
| `RecalculateWaffling.EmailFactor` | supabase/functions/recalculate-waffling/index.ts:84-97 | 20 without recent emails; else `Math.round(20 × unanswered / recent)` over the emails at most 30 whole days old, so 20 without replies and 0 when every one was replied to; always within 0..20 |
| `RecalculateWaffling.RoundRatioBounds` | supabase/functions/recalculate-waffling/index.ts:95-96 | the rounded non-reply share of 20 stays within 0..20 and is exact at both ends |
| `RecalculateWaffling.WafflingScore` | supabase/functions/recalculate-waffling/index.ts:46-100 | the capped sum is at most 100, and non-negative unless the last contact lies in the future |
| `RecalculateWaffling.ComputeUpdates` | supabase/functions/recalculate-waffling/index.ts:45-107 | the first loop builds the queue of the specification; every entry moved by at least 5 and is at most 100 |
| `RecalculateWaffling.ApplyUpdates` | supabase/functions/recalculate-waffling/index.ts:110-121 | the write loop leaves the table as the successful writes make it and counts them |
| `RecalculateWaffling.Run` | supabase/functions/recalculate-waffling/index.ts:33-133 | a failed accounts read fails the job with its message and writes nothing; otherwise the queue is computed from the snapshot (unchecked deals or emails reads count as empty) and written, and the response reports the accounts checked, the successful writes and the queue |
| `RecalculateWaffling.CapNeverBinds` | supabase/functions/recalculate-waffling/index.ts:99-100 | the four factors add up to at most 100, so the score is their plain sum |
| `RecalculateWaffling.FutureContactGoesNegative` | supabase/functions/recalculate-waffling/index.ts:49-52 | there is no lower cap: a firm account with a contact date four weeks ahead scores below 0 |
| `RecalculateWaffling.ScenarioWafflingNeverContacted` | supabase/functions/recalculate-waffling/index.ts:48-97 | never contacted, waffling, no active deals and no emails score 30 + 20 + 25 + 20 = 95 |
| `RecalculateWaffling.NoActiveDeals` | supabase/functions/recalculate-waffling/index.ts:67-68 | an account whose deals are all closed has no active deals |
| `RecalculateWaffling.NoRecentEmails` | supabase/functions/recalculate-waffling/index.ts:84-89 | an account without emails has no recent emails |
| `RecalculateWaffling.ScenarioFirmEngaged` | supabase/functions/recalculate-waffling/index.ts:58-64 | a firm account contacted today, with a fresh active deal and all emails replied, scores 10 (firm falls through to 10) |
| `RecalculateWaffling.ScoreIgnoresStoredScore` | supabase/functions/recalculate-waffling/index.ts:46-100 | the computed score does not depend on the stored `waffling_score` |
| `RecalculateWaffling.QueuedUpdatesFrom` | supabase/functions/recalculate-waffling/index.ts:102-106 | every queue entry is the old and new score of an account whose score moved by at least 5 |
| `RecalculateWaffling.QueuedAccountListed` | supabase/functions/recalculate-waffling/index.ts:102-106 | every account whose score moved by at least 5 has its entry in the queue |
| `RecalculateWaffling.QueueCharacterised` | supabase/functions/recalculate-waffling/index.ts:102-106 | the queue holds exactly the entries of the accounts that moved by at least 5 (null stored score read as 0) |
| `RecalculateWaffling.AfterWritesRow` | supabase/functions/recalculate-waffling/index.ts:110-121 | a row is unchanged or holds the score of a successful write with its id, and changes whenever such a write exists |
| `RecalculateWaffling.QueuedHasWrite` | supabase/functions/recalculate-waffling/index.ts:102-121 | when every write succeeds, a queued account has a successful write with its id |
| `RecalculateWaffling.RerunRow` | supabase/functions/recalculate-waffling/index.ts:102-121 | with unique ids and every write successful, no account is queued after the writes |
| `RecalculateWaffling.RerunQueuesNothing` | supabase/functions/recalculate-waffling/index.ts:45-121 | after a fully successful run, running again over the same deals and emails queues nothing |
| `DetectAtRisk.JoinAccount` | supabase/functions/detect-at-risk/index.ts:24 | the embedded account is present exactly when a row with the deal's account id exists, and is such a row |
| `DetectAtRisk.QueryRows` | supabase/functions/detect-at-risk/index.ts:22-25 | the i-th row joins the i-th deal outside signed and lost, in table order, with the account row of its id |
| `DetectAtRisk.StaleActivity` | supabase/functions/detect-at-risk/index.ts:36-44 | a last activity date more than 10 whole days ago |
| `DetectAtRisk.HighWaffling` | supabase/functions/detect-at-risk/index.ts:46-50 | an embedded account with a waffling score above 60 (a null score compares false) |
| `DetectAtRisk.AccountMarkedAtRisk` | supabase/functions/detect-at-risk/index.ts:52-56 | an embedded account whose decision certainty is at risk |
| `DetectAtRisk.ColdProspect` | supabase/functions/detect-at-risk/index.ts:58-62 | a prospect deal whose probability, null read as 0, is below 30 |
| `DetectAtRisk.Flagged` | supabase/functions/detect-at-risk/index.ts:36-62 | some rule fires; `Reasons` and `AssessDeal` state that the flag and the messages follow it |
| `DetectAtRisk.Reasons` | supabase/functions/detect-at-risk/index.ts:34-62 | the messages of the firing rules: non-empty exactly when the deal is flagged, at most four, none empty; without an activity date or account only the prospect rule can fire |
| `DetectAtRisk.AssessDeal` | supabase/functions/detect-at-risk/index.ts:33-62 | the four rule checks set the flag exactly when a rule fires and collect the reasons in rule order |
| `DetectAtRisk.UpdateFor` | supabase/functions/detect-at-risk/index.ts:66-70 | the queued flag is the computed one, and the joined reason is empty exactly when the flag is cleared |
| `DetectAtRisk.ComputeUpdates` | supabase/functions/detect-at-risk/index.ts:32-72 | the first loop builds the queue of the specification; an entry's reason is empty exactly when it clears the flag |
| `DetectAtRisk.ApplyUpdates` | supabase/functions/detect-at-risk/index.ts:75-86 | the write loop leaves the table as the successful writes make it and counts them |
| `DetectAtRisk.Run` | supabase/functions/detect-at-risk/index.ts:22-98 | a failed read fails the job with its message and writes nothing; otherwise the queue of the fetched rows is written and the response reports the rows checked, the successful writes and the queue |
| `DetectAtRisk.QueuedUpdatesFrom` | supabase/functions/detect-at-risk/index.ts:64-71 | every queue entry belongs to a fetched row whose stored flag differs from the computed one |
| `DetectAtRisk.QueuedRowListed` | supabase/functions/detect-at-risk/index.ts:64-71 | every fetched row whose flag differs has its entry in the queue |
| `DetectAtRisk.QueueEmptyIffAgreeing` | supabase/functions/detect-at-risk/index.ts:64-71 | the queue is empty exactly when every stored flag agrees with the rules |
| `DetectAtRisk.AfterWritesRow` | supabase/functions/detect-at-risk/index.ts:75-86 | a row is unchanged or holds the flag of a successful write with its id, and changes whenever such a write exists |
| `DetectAtRisk.UpdateBelongsToDeal` | supabase/functions/detect-at-risk/index.ts:22-71 | with unique ids, an entry naming a deal is for an open deal and carries that deal's computed flag |
| `DetectAtRisk.TerminalDealsUntouched` | supabase/functions/detect-at-risk/index.ts:25 | signed and lost deals are never written, whatever their flag |
| `DetectAtRisk.WrittenFlagsAgree` | supabase/functions/detect-at-risk/index.ts:64-86 | after a fully successful run every open deal's flag equals the rules' verdict |
| `DetectAtRisk.RerunQueuesNothing` | supabase/functions/detect-at-risk/index.ts:22-86 | after a fully successful run, running again queues nothing |
| `DeadlineAlerts.Upcoming` | supabase/functions/deadline-alerts/index.ts:36-42 | exactly the titles with a deadline from today to today plus the threshold, sorted by deadline, a permutation of those titles |
| `DeadlineAlerts.UrgencyFor` | supabase/functions/deadline-alerts/index.ts:52-61 | critical up to 2 days, high for 3-4, medium for 5-7, low beyond |
| `DeadlineAlerts.PercentToGoal` | supabase/functions/deadline-alerts/index.ts:76-78 | 0 without a positive goal; else booked over goal as a rounded percentage, 100 when met and within 0..100 when not exceeded |
| `DeadlineAlerts.PercentBounds` | supabase/functions/deadline-alerts/index.ts:77 | the rounded percentage is exactly 100 at the goal and within 0..100 below it |
| `DeadlineAlerts.AlertFor` | supabase/functions/deadline-alerts/index.ts:46-79 | an alert copies the title's fields, counts the calendar days to the deadline and carries its urgency, gaps and percent |
| `DeadlineAlerts.AlertsFor` | supabase/functions/deadline-alerts/index.ts:46 | one alert per fetched title, in fetch order |
| `DeadlineAlerts.AlertsInWindow` | supabase/functions/deadline-alerts/index.ts:36-80 | every alert has 0 to threshold days remaining, a low urgency needs a threshold above 7, and deadlines ascend |
| `DeadlineAlerts.Run` | supabase/functions/deadline-alerts/index.ts:21-92 | a failed read fails the job with its message; otherwise the response carries the threshold, the alerts of the window and their count |
| `DeadlineAlerts.UrgencyMonotone` | supabase/functions/deadline-alerts/index.ts:52-61 | fewer days remaining never means a lower urgency |
| `DeadlineAlerts.WindowExamples` | supabase/functions/deadline-alerts/index.ts:39-41 | a deadline eight days out is outside the default window and inside a window of 8; a past deadline is never inside |
| `DeadlineAlerts.DefaultWindow` | supabase/functions/deadline-alerts/index.ts:21-30 | a body without a threshold or with 0 acts as no body, and the default window is 7 days |
| `StaleContacts.StaleAccounts` | supabase/functions/stale-contacts/index.ts:33-40 | a permutation of the accounts never contacted or last contacted before today minus the threshold, never-contacted first, then by ascending contact day |
| `StaleContacts.AccountIds` | supabase/functions/stale-contacts/index.ts:45 | the ids of the fetched accounts, in order |
| `StaleContacts.GroupDeals` | supabase/functions/stale-contacts/index.ts:55-62 | the dictionary has an entry exactly for the accounts with fetched deals, holding their deal count and value sum |
| `StaleContacts.Tally` | supabase/functions/stale-contacts/index.ts:56-62 | an account the loop has not met yet has a zero value |
| `StaleContacts.TallyIsGroupOf` | supabase/functions/stale-contacts/index.ts:56-62 | the running tally ends at the account's deal count and value sum |
| `StaleContacts.GroupSnoc` | supabase/functions/stale-contacts/index.ts:57-61 | one more deal creates the account's entry if missing and adds one to the count and its value to the sum |
| `StaleContacts.GroupedDealsAreActiveDeals` | supabase/functions/stale-contacts/index.ts:46-50 | for a listed account, the fetched deals are exactly its deals outside signed and lost |
| `StaleContacts.Priority` | supabase/functions/stale-contacts/index.ts:74-83 | the rounded priority of a contact; its range, monotonicity and bonuses are the lemmas `PriorityRange`, `PriorityMonotoneInWaffling`, `NeverContactedOutranks` and `DealBonusNeedsValue` |
| `StaleContacts.PriorityScore` | supabase/functions/stale-contacts/index.ts:74-83 | the priority accumulation equals the rounded sum of recency, 0.3 times the waffling score, the deal bonus and the certainty bonus |
| `StaleContacts.EntryFor` | supabase/functions/stale-contacts/index.ts:64-99 | an entry copies every listed column of the account (id, names, email, phone, city, contact day, waffling, certainty), carries its days since contact, its deal count and value (zero without deals) and its priority |
| `StaleContacts.Entries` | supabase/functions/stale-contacts/index.ts:64 | one entry per stale account, in query order |
| `StaleContacts.Report` | supabase/functions/stale-contacts/index.ts:21-110 | the threshold from the body (default 5), one entry per stale account, sorted by descending priority |
| `StaleContacts.Run` | supabase/functions/stale-contacts/index.ts:36-52 | a failed accounts read or deals read fails the job with its message, in that order; otherwise the report |
| `StaleContacts.ReportEntries` | supabase/functions/stale-contacts/index.ts:64-100 | the ranked list is a permutation of the entries, and every listed contact is more than the threshold days old |
| `StaleContacts.TiesKeepQueryOrder` | supabase/functions/stale-contacts/index.ts:100 | entries of equal priority keep the query's order |
| `StaleContacts.ListedAccountDeals` | supabase/functions/stale-contacts/index.ts:46-71 | a listed account's count and value are those of all its active deals, zero and zero without them |
| `StaleContacts.PriorityRange` | supabase/functions/stale-contacts/index.ts:74-83 | for past contacts and waffling within 0..100 the priority is within 0..115 |
| `StaleContacts.PriorityMonotoneInWaffling` | supabase/functions/stale-contacts/index.ts:80 | a higher waffling score never lowers the priority |
| `StaleContacts.NeverContactedOutranks` | supabase/functions/stale-contacts/index.ts:75-79 | a never-contacted account outscores the same account with any contact date |
| `StaleContacts.DealBonusNeedsValue` | supabase/functions/stale-contacts/index.ts:81 | any positive deal value adds exactly 20 points to the priority, and a value of 0 or less adds none |
| `RunAllAutomations.ErrorLine` | supabase/functions/run-all-automations/index.ts:36-37 | the step name, a colon and the message, "Unknown error" without one |
| `RunAllAutomations.SlotOf` | supabase/functions/run-all-automations/index.ts:32-33 | a step's result slot is set exactly when its call returned without error, holding its count |
| `RunAllAutomations.ErrorsOf` | supabase/functions/run-all-automations/index.ts:27-103 | the error list is empty exactly when every step succeeded; errors and set slots add up to five |
| `RunAllAutomations.CountOf` | supabase/functions/run-all-automations/index.ts:116-119 | an unset slot or a missing count reads as 0, else the count |
| `RunAllAutomations.SummaryOf` | supabase/functions/run-all-automations/index.ts:115-120 | the summary takes the four job counts from their slots |
| `RunAllAutomations.RunAll` | supabase/functions/run-all-automations/index.ts:22-121 | the five calls in order with their bodies; success exactly without errors; the error list only when non-empty; the summary of the results; the duration and run time from the clock |
| `RunAllAutomations.DigestDoesNotAffectSummary` | supabase/functions/run-all-automations/index.ts:115-120 | the digest's slot plays no part in the summary |
| `RunAllAutomations.ScenarioDeadlineFails` | supabase/functions/run-all-automations/index.ts:57-71 | a deadline step that throws gives one error line and a zero alert count while the other counts come through |
| `RunAllAutomations.ScenarioDigestFails` | supabase/functions/run-all-automations/index.ts:89-110 | a digest step that throws gives "daily-digest: Unknown error" while all four counts are reported |
| `RunAllAutomations.ScheduledThresholdsAreDefaults` | supabase/functions/run-all-automations/index.ts:62-78 | the thresholds sent to the deadline and stale-contact steps are those jobs' defaults |
| `AccountHealth.WafflingSignal` | src/components/account/AccountHealthSection.tsx:39-53 | a signal exactly above 50, high exactly above 70, else medium |
| `AccountHealth.ContactSignal` | src/components/account/AccountHealthSection.tsx:55-69 | a signal exactly for more than 5 days, high exactly above 10, else medium |
| `AccountHealth.FlaggedDealsSignal` | src/components/account/AccountHealthSection.tsx:71-78 | a signal exactly when a deal is flagged, high exactly for more than 2 |
| `AccountHealth.CertaintySignal` | src/components/account/AccountHealthSection.tsx:80-87 | a high signal exactly for an at_risk certainty |
| `AccountHealth.Signals` | src/components/account/AccountHealthSection.tsx:37-87 | at most four signals, none of low severity |
| `AccountHealth.RiskSignals` | src/components/account/AccountHealthSection.tsx:34-87 | the conditional pushes give the signals in rule order; the flagged-proposals signal appears exactly when some deal is flagged |
| `AccountHealth.SignalIds` | src/components/account/AccountHealthSection.tsx:71-78 | the at-risk-deals id appears exactly when some deal is flagged |
| `AccountHealth.HealthScore` | src/components/account/AccountHealthSection.tsx:90 | 100 minus the waffling score and 10 per signal, floored at 0, at most 100 |
| `AccountHealth.HealthColor` | src/components/account/AccountHealthSection.tsx:92-96 | success from 70, danger below 40, warning between |
| `AccountHealth.HealthLabel` | src/components/account/AccountHealthSection.tsx:98-102 | Healthy from 70, Needs Attention from 40, At Risk below 40 |
| `AccountHealth.WafflingColor` | src/components/account/AccountHealthSection.tsx:104-108 | success up to 25, danger above 50, warning between |
| `AccountHealth.HealthScoreAntitone` | src/components/account/AccountHealthSection.tsx:90 | a higher waffling score or more signals never raise the health score |
| `AccountHealth.LabelMatchesColour` | src/components/account/AccountHealthSection.tsx:92-102 | Healthy is green and At Risk is red |
| `AccountHealth.WafflingAndAtRiskIsUnhealthy` | src/components/account/AccountHealthSection.tsx:39-102 | a waffling score above 70 with an at_risk certainty gives at least two signals, a score of at most 9 and the label At Risk |
| `AccountSummary.Plural` | src/components/account/AIAccountSummary.tsx:139 | the plural suffix is missing exactly for one |
| `AccountSummary.KeyFact` | src/components/account/AIAccountSummary.tsx:139-142 | the company and its active proposal count, with the value appended exactly when it is positive |
| `AccountSummary.SituationOf` | src/components/account/AIAccountSummary.tsx:144-153 | hesitant exactly for at_risk or a waffling score above 50; else strong for firm; else quiet after more than 5 days; else the certainty, or "active" |
| `AccountSummary.ActionOf` | src/components/account/AIAccountSummary.tsx:155-164 | follow up exactly when a deal is flagged, naming how many; else check in after more than 7 days; else urgency for waffling; else regular follow-up |
| `AccountSummary.FallbackInsight` | src/components/account/AIAccountSummary.tsx:130-167 | the insight combines the key fact over the active deals and the total value of all deals, the situation text and the action text |
| `AccountSummary.NoContactDateNoDayBranches` | src/components/account/AIAccountSummary.tsx:149-158 | without a contact date neither day-based branch is taken |
| `AccountSummary.ClosedDealsAddValueOnly` | src/components/account/AIAccountSummary.tsx:131-132 | a signed or lost deal adds to the total value but not to the active count |
| `AccountSummary.KeyFactMentionsValueOnlyWhenPositive` | src/components/account/AIAccountSummary.tsx:140-142 | a non-positive total reads like zero, a positive one lengthens the key fact |
| `MockData.Find` | src/data/mockData.ts:142-143 | `find` gives nothing exactly when no element matches, else the first match |
| `MockData.GetAccountById` | src/data/mockData.ts:142 | the first account with the id, or nothing exactly when none has it |
| `MockData.GetTitleById` | src/data/mockData.ts:143 | the first title with the id, or nothing exactly when none has it |
| `MockData.GetAccountDeals` | src/data/mockData.ts:145-146 | exactly the deals of the account |
| `MockData.GetTitleDeals` | src/data/mockData.ts:148-149 | exactly the deals of the title |
| `MockData.GetAtRiskDeals` | src/data/mockData.ts:151-152 | exactly the flagged deals neither signed nor lost |
| `MockData.NeedsAttention` | src/data/mockData.ts:158-160 | last contacted before five days ago or waffling above 50 |
| `MockData.GetNeedsAttentionAccounts` | src/data/mockData.ts:154-162 | exactly the accounts last contacted before five days ago or waffling above 50 |
| `MockData.GetDaysUntil` | src/data/mockData.ts:170-175 | the calendar days from today to the date, negative exactly for a past date |
| `MockData.DealFiltersKeepOrder` | src/data/mockData.ts:145-152 | the deal filters keep the input order |
| `MockData.AtRiskDealsOfAccount` | src/data/mockData.ts:145-152 | an account's at-risk deals are the same whichever filter runs first |
| `MockData.AttentionByContactAge` | src/data/mockData.ts:154-161 | a contact six days back always needs attention; a contact today needs it exactly when waffling above 50 |
| `CsvExport.Escape` | src/lib/exportUtils.ts:22 | doubling quotes never shortens the text and leaves quote-free text unchanged |
| `CsvExport.CellText` | src/lib/exportUtils.ts:20-26 | every cell text is non-empty, and quoted exactly unless it is a number or a boolean |
| `CsvExport.HeaderTexts` | src/lib/exportUtils.ts:14 | one quoted label per column, in column order |
| `CsvExport.RowTexts` | src/lib/exportUtils.ts:18-27 | one cell text per column, in column order |
| `CsvExport.RowsTexts` | src/lib/exportUtils.ts:17-29 | one row per item, in input order |
| `CsvExport.Lines` | src/lib/exportUtils.ts:28 | each record is its cells joined by commas |
| `CsvExport.CsvText` | src/lib/exportUtils.ts:8-31 | no text exactly for empty data |
| `CsvExport.CsvLines` | src/lib/exportUtils.ts:14-31 | the text is the header line and then one line per item, joined by line breaks |
| `CsvExport.QuotedRoundTrip` | src/lib/exportUtils.ts:22 | an escaped value and its closing quote read back as the value |
| `CsvExport.CellRoundTrip` | src/lib/exportUtils.ts:20-26 | a well-formed cell's text reads back, as one field, as its value |
| `CsvExport.RecordRoundTrip` | src/lib/exportUtils.ts:18-28 | a record of well-formed cells reads back as their values |
| `CsvExport.DocumentRoundTrip` | src/lib/exportUtils.ts:17-31 | a table of well-formed cells, joined into lines, reads back row by row |
| `CsvExport.CsvRoundTrip` | src/lib/exportUtils.ts:8-31 | reading the exported text back gives the labels, then each item's values in column order |
| `CsvExport.QuotedLabelBreaksHeader` | src/lib/exportUtils.ts:14 | a label holding a quote is not escaped, so the header no longer reads back |
| `QuickEmail.ReplaceAll` | src/components/email/QuickEmailDialog.tsx:36-41 | `replace(/pat/g, value)` for a literal pattern; its meaning is `ReplaceIsSplitJoin` and `ReplaceAllMeaning` |
| `QuickEmail.ReplaceIsSplitJoin` | src/components/email/QuickEmailDialog.tsx:36-41 | replacing every match is splitting at the matches and joining with the value |
| `QuickEmail.ReplaceBySelf` | src/components/email/QuickEmailDialog.tsx:36-41 | replacing a pattern by itself changes nothing |
| `QuickEmail.SplitJoin` | src/components/email/QuickEmailDialog.tsx:36-41 | joining the pieces with the pattern gives the text back |
| `QuickEmail.SplitPiecesFree` | src/components/email/QuickEmailDialog.tsx:36-41 | no piece contains the pattern |
| `QuickEmail.ReplaceAllMeaning` | src/components/email/QuickEmailDialog.tsx:36-41 | the text is its match-free pieces joined by the pattern, and the replacement joins the same pieces with the value |
| `QuickEmail.ReplaceAbsent` | src/components/email/QuickEmailDialog.tsx:36-41 | a text without the pattern is unchanged |
| `QuickEmail.ReplaceWhole` | src/components/email/QuickEmailDialog.tsx:36-41 | the pattern alone becomes the value |
| `QuickEmail.FirstWord` | src/components/email/QuickEmailDialog.tsx:37 | the prefix up to the first space: space-free and followed by a space when shorter than the text |
| `QuickEmail.OrElse` | src/components/email/QuickEmailDialog.tsx:38-40 | the value when present and non-empty, else the fallback |
| `QuickEmail.FirstName` | src/components/email/QuickEmailDialog.tsx:37 | the contact's first word, or "there" without one; never empty |
| `QuickEmail.PublicationName` | src/components/email/QuickEmailDialog.tsx:41 | the title's name when present and non-empty, else "our publication" |
| `QuickEmail.ApplyTemplateVariables` | src/components/email/QuickEmailDialog.tsx:35-42 | the five replacements in source order; what they do is stated by `NoPlaceholdersUnchanged`, `InsertedTextIsRescanned`, `PublicationIsNotRescanned` and `GreetingUsesFirstWord` |
| `QuickEmail.NoPlaceholdersUnchanged` | src/components/email/QuickEmailDialog.tsx:35-42 | a text without any of the five placeholders is unchanged |
| `QuickEmail.InsertedTextIsRescanned` | src/components/email/QuickEmailDialog.tsx:37-39 | a contact named `{{city}}` is replaced again by the later city step |
| `QuickEmail.PlaceholdersApart` | src/components/email/QuickEmailDialog.tsx:39-41 | the publication placeholder contains neither the city nor the business placeholder |
| `QuickEmail.PublicationIsNotRescanned` | src/components/email/QuickEmailDialog.tsx:41 | the publication is inserted last, so a title named `{{city}}` stays as it is |
| `QuickEmail.GreetingUsesFirstWord` | src/components/email/QuickEmailDialog.tsx:37 | a contact named "first last" is greeted by the first word |

## Left out

- HTTP handling is not modelled: the CORS preflight, JSON responses and status codes. The outer `try/catch` of each job is reduced to the `Failed` result of a read error.
- The cron-secret check is not modelled. The orchestrator's calls do not send the secret, so each step's outcome is an input of `RunAllAutomations.RunAll`.
- The Supabase client is not modelled. Queries are snapshots of the tables, and write errors come from an oracle.
- Postgres ordering among equal sort keys is not modelled. The model sorts stably, keeping table order.
- The clock and `ran_at` are parameters, and so is the start and end time of the orchestrator. Logging is left out.
- The generated features are left out: `ai-insights`, `generate-email`, the summary card's call at `src/components/account/AIAccountSummary.tsx:35-51`, and the internals of `daily-digest`. The daily digest appears only as the fifth step of the orchestrator.
- Date parsing and formatting are left out. Dates are day numbers and instants, which also covers timezones.
- `MockData.GetNeedsAttentionAccounts`: `setDate(getDate() - 5)` is modelled as exactly five days of milliseconds, so daylight-saving shifts are not modelled.
- `toLocaleString` is the `format` parameter of `AccountSummary.KeyFact`.
- `Crm.DaysThreshold` does not model `parseInt` on non-integer thresholds, or the `NaN` it can produce. A threshold is an integer or absent.
- `QuickEmail.ReplaceAll` does not model `$` patterns in a replacement string; the value is inserted literally.
- The demonstration record arrays (`src/data/mockData.ts:45-139`) are parameters. `formatCurrency` and `formatDate` are locale formatting and are left out.
- `CsvExport.CsvText` stops at the text. The download (`src/lib/exportUtils.ts:33-42`) is browser I/O.
- `CsvExport.CellText`: numbers are integers, so JavaScript's float text is not modelled.
- `CsvExport.CellText`: an object cell's `String(value)` and a date's ISO text are given as text.
- `CsvExport.CsvRoundTrip` requires labels without quotes and dates without quotes, because the source quotes both without escaping. `CsvExport.QuotedLabelBreaksHeader` shows the failure otherwise.
- The CSV reader used for the round trip is strict about quoted fields and lenient about quotes inside bare fields. Bare fields never occur in the exporter's output except numbers and Yes/No.
- `StaleContacts.PriorityScore`: the method is the imperative form of the `priorityScore +=` accumulation and is proved equal to `StaleContacts.Priority`, which the report uses through `EntryFor`. The value sum uses `Number(deal.value) || 0` on integer values, so non-numeric values are not modelled. The same holds for `AccountSummary.TotalValue`.
- Floating point is left out. The stale-contacts priority is exact in tenths; `Math.round` rounds halves towards positive infinity, as in JavaScript, and float rounding error is not modelled.
- All React rendering, icons, badges and state hooks are left out.
