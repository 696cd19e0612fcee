# properview — a verified model of its analytics, dashboard and client-state core

properview is a small real-estate listing application (Next.js API routes over a
Prisma database, React hooks on the client). This project models its sequential
core in Dafny and proves what that core promises:

- **Analytics write side.**
  - `POST /api/analytics/track-view` validates the body, derives the client address, drops a repeat view of the same session on the same UTC day, appends the view and recounts the day.
  - `POST /api/inquiries` validates the body, checks that the property exists, creates the inquiry and runs the same recount.
  - The recount (`updateDailyAnalytics` / `updateAnalyticsForInquiry`) overwrites one per-property row and one global row with counts filtered over the day.
  - The seed script (`prisma/seedUtils.ts`) is the batch version. It counts the same days over a window that includes the day's last millisecond.
- **Analytics read side.** `GET /api/analytics/summary` computes:
  - the 30-day totals;
  - the week-over-week trends, zero-guarded and rounded;
  - the chart series, reversed to ascending order;
  - the top five properties, with missing ones dropped.
- **Dashboard.**
  - `GET /api/dashboard/stats`: counts, value sold, conversion rate, time on market.
  - `GET /api/agent/dashboard/activity`: three source lists merged into a feed of ten, newest first.
- **Listings.**
  - `GET` / `POST /api/properties`: the ordered missing-field list and the creation defaults.
  - The listing filters of `usePropertyFilters`.
- **Client state.**
  - The inquiry list with read/unread toggles and the unread count (`useInquiries`, and the identical state of `InquiriesProvider`).
  - The two confirm-dialog hooks, with their different failure behaviour.
  - The mock login with its session-storage slot.
- **Pure helpers.**
  - `formatActivityType`, `formatNumber`, `formatTrend` and `generateSessionId`.
  - The sidebar's active-item rule and unread badge.
  - `formatPhoneNumber` and `formatTimeAgo`, as their tests pin them down.

## How the model is built

- **Time.**
  - Instants are integer milliseconds since the epoch (UTC).
  - A `YYYY-MM-DD` date is a UTC day number, `t / 86400000`.
  - Day numbers compare in the same order as the ISO date strings.
- **The database.**
  - It is one `Store.Db` object holding the five tables as sequences.
  - `State()` is a snapshot of all five tables.
  - The two roll-up tables keep their unique keys (`Store.WellFormed`, preserved as `Db.Valid()`).
  - An upsert is `Keyed.Upsert` over the key. A `createMany` is `Keyed.InsertMany`, which fails as a whole when a key repeats.
- **Things outside the program become parameters:**
  - the clock reading of a request (`now`);
  - the first day of the current month (`monthStart`);
  - the random draws of the seed script (`ViewPick`, the random parts of session ids, `viewDraw`);
  - the new row id;
  - `toLocaleDateString()` (`calendar`);
  - whether session storage is available;
  - the outcome of every `fetch`.
- **Routes.**
  - Each route is a module-level method that takes the `db: Db` object and modifies it.
  - Its `ensures` gives the reply and the new state of every table for every branch: 400, 404, success.
- **Hooks.**
  - Each hook is a class whose fields are its React state.
  - A state update ending in a re-render is a field assignment.
- **Sorting.** A database `orderBy` or an `Array.sort` is `Seqs.SortDesc`, specified as sorted and a permutation of its input.

## Model

| member | source | states |
|---|---|---|
| Store.HalfOpenWindow | app/api/analytics/track-view/route.ts:66-77 | The routes' `gte dayStart, lt dayEnd` window holds exactly the instants of the day except its last millisecond 23:59:59.999Z. The seed script's `lte` window holds the whole day. |
| Store.Sessions | app/api/analytics/track-view/route.ts:70-79 | The distinct session ids of some views (`groupBy sessionId`) number at most the views. |
| Store.SessionsMembers | app/api/analytics/track-view/route.ts:70-79 | A session id is in the group exactly when some view carries it. |
| Store.PropertyRow | app/api/analytics/track-view/route.ts:69-101 | The per-property counters of a day are the number of that property's views in the window, the number of distinct session ids among those views (the `groupBy sessionId` length) and its inquiries in the window. Distinct sessions never exceed views. |
| Store.SummaryRow | app/api/analytics/track-view/route.ts:125-152 | The global counters of a day are the number of views in the window, the number of distinct session ids among those views and the inquiries in the window. Sessions never exceed views. |
| Store.Recount | app/api/analytics/track-view/route.ts:103-167 | After the recount, the (property, day) row is the freshly counted `PropertyRow` and the day's global row is the fresh `SummaryRow`. Every other row of both tables and the three log tables are unchanged. |
| Store.RecountKeepsWellFormed | app/api/analytics/track-view/route.ts:104-110 | The recount keeps both roll-up tables unique on their keys (`propertyId_date`, `date`). |
| Store.RecountIdempotent | app/api/analytics/track-view/route.ts:111-115 | The recount overwrites rather than increments: running it twice gives the state of running it once. |
| Store.ViewsOnAppend | app/api/analytics/track-view/route.ts:72-77 | Appending a view adds it to a filtered count exactly when it matches the filter. |
| Store.InquiriesOnAppend | app/api/analytics/track-view/route.ts:93-101 | Appending an inquiry adds it to a filtered count exactly when it matches the filter. |
| Keyed.Upsert | app/api/analytics/track-view/route.ts:104-123 | An upsert makes the row found under its key and leaves every other key's row as it was. |
| Keyed.UpsertIdempotent | app/api/analytics/track-view/route.ts:154-167 | Upserting the same row twice is upserting it once. |
| Keyed.UpsertKeepsKeysUnique | app/api/analytics/track-view/route.ts:154-155 | An upsert keeps a table's keys unique. |
| Keyed.InsertMany | prisma/seedUtils.ts:122-128 | `createMany` succeeds exactly when the batch repeats no key and clashes with no stored key, and then appends the batch. A table with unique keys keeps them. |
| TrackView.FirstField | app/api/analytics/track-view/route.ts:20 | `split(',')[0]` is a prefix of the header that holds no comma and stops at the first comma. |
| TrackView.ClientIp | app/api/analytics/track-view/route.ts:18-20 | The address is the first field of `x-forwarded-for` when that is non-empty, otherwise `x-real-ip` when present and non-empty, otherwise 'unknown'. It is never empty. |
| TrackView.ForwardedAddressIsOneHop | app/api/analytics/track-view/route.ts:20 | An address taken from `x-forwarded-for` holds no comma and is a prefix of the header. |
| TrackView.UpdateDailyAnalytics | app/api/analytics/track-view/route.ts:65-167 | The method leaves the database in the `Recount` state for the property and day. |
| TrackView.Post | app/api/analytics/track-view/route.ts:4-55 | A missing or empty `propertyId` or `sessionId` gives 400 and leaves every table unchanged. A session that already viewed the property in today's window gets 'View already tracked today' and nothing changes. Otherwise exactly one view is appended, today is recounted and the reply is 'View tracked successfully'. |
| TrackView.TrackedViewCount | app/api/analytics/track-view/route.ts:42-53 | A tracked view raises its day's property and global view counts by one, except when stamped at the day's last millisecond. |
| TrackView.LastMillisecondNotCounted | app/api/analytics/track-view/route.ts:66-77 | A view stamped 23:59:59.999Z changes no day's count for its property. |
| TrackView.SecondViewSameDayIsDuplicate | app/api/analytics/track-view/route.ts:24-39 | Once a view is stored, a later request of the same session and property on the same day is a duplicate. |
| TrackView.AlreadyViewedOnAppend | app/api/analytics/track-view/route.ts:25-39 | The duplicate check over a log that has grown by some views holds exactly when it holds over the old log or over the new views. So a view already seen today stays seen after later writes. |
| TrackView.NewView | app/api/analytics/track-view/route.ts:42-50 | The created view carries the property, the session, the never-empty client address and the clock reading. The user agent and referrer are empty when absent. |
| InquiriesRoute.NewInquiry | app/api/inquiries/route.ts:125-134 | The created inquiry carries the submitted fields unchanged, is unread, is dated now, and stores `phone` as null exactly when it is absent or empty. |
| InquiriesRoute.UpdateAnalyticsForInquiry | app/api/inquiries/route.ts:5-79 | The method leaves the database in the `Recount` state for the property and the UTC day of the clock. |
| InquiriesRoute.Get | app/api/inquiries/route.ts:82-90 | The method returns every inquiry, as a permutation of the table, ordered by `createdAt` descending. |
| InquiriesRoute.Post | app/api/inquiries/route.ts:101-139 | A missing `propertyId`, `name`, `email` or `message` gives 400 and changes nothing; `phone` is not required. An unknown property gives 404 and changes nothing. Otherwise the inquiry is appended, today is recounted and the reply is 201 with the inquiry. |
| InquiriesRoute.SubmittedInquiryCount | app/api/inquiries/route.ts:5-48 | After a submission, today's inquiry count for the property and the global one are one higher, except at the day's last millisecond. The view counts are unchanged. |
| Summary.ThirtyDaysAgo | app/api/analytics/summary/route.ts:7-9 | `thirtyDaysAgo` is the UTC day 30 days before the one of the clock reading. |
| Summary.LastThirtyDays | app/api/analytics/summary/route.ts:45-54 | The rows read are exactly the summary rows dated on or after `thirtyDaysAgo` (as a multiset), in date-descending order. |
| Summary.ThirtyDayTotals | app/api/analytics/summary/route.ts:56-66 | `totalViews` and `totalInquiries` are the sums over all summary rows dated on or after `thirtyDaysAgo`, whatever their order. |
| Summary.Slice | app/api/analytics/summary/route.ts:72-73 | `slice(lo, hi)` returns the elements at positions lo..hi-1 that exist, so the length is hi - lo on a long enough list, |s| - lo on a list that ends inside the window, and 0 on one that ends before it. |
| Summary.TrendWindows | app/api/analytics/summary/route.ts:72-73 | The recent window (rows 0..6) and the previous window (rows 7..13) together are the first fourteen rows. Under seven rows, everything is recent and the previous window is empty. |
| Summary.TrendPct | app/api/analytics/summary/route.ts:83-101 | The trend is 0 when the previous window sums to 0 or less. Otherwise it is `(recent - prev) / prev * 100`. |
| Summary.TrendExamples | app/api/analytics/summary/route.ts:159-160 | Worked cases of the rounded trend: 150 against 100 gives 50, 80 against 100 gives -20, 1 against 3 gives -66.67, and anything against 0 gives 0. |
| Summary.ChartSeries | app/api/analytics/summary/route.ts:104-109 | The chart has one point per row, carrying that row's date and counters. |
| Summary.ReverseInPlace | app/api/analytics/summary/route.ts:104 | `reverse()` turns the array into the reverse of its old contents, in place. |
| Summary.Chart | app/api/analytics/summary/route.ts:104-109 | The chart is the series of the reversed rows. |
| Summary.ChartAscending | app/api/analytics/summary/route.ts:104-109 | Reversing the date-descending rows gives a chart in ascending date order. |
| Summary.PropertyIds | app/api/analytics/summary/route.ts:112-113 | The `propertyId` of every daily row, in row order. |
| Summary.Distinct | app/api/analytics/summary/route.ts:112-113 | The grouping keys hold every id that occurs, each once. |
| Summary.Totals | app/api/analytics/summary/route.ts:119-123 | A group's totals belong to its property. |
| Summary.GroupsOf | app/api/analytics/summary/route.ts:112-123 | There is one group per key, holding that key's summed counters. |
| Summary.GroupByProperty | app/api/analytics/summary/route.ts:112-123 | `groupBy propertyId` gives one group per distinct property id, no id twice, each with its summed views, inquiries and visitors. |
| Summary.GroupsCoverProperties | app/api/analytics/summary/route.ts:112-123 | Every property with a daily row has a group, and every group comes from some row. |
| Summary.Ranked | app/api/analytics/summary/route.ts:112-128 | The ranked groups are a permutation of the groups of the daily rows dated on or after `thirtyDaysAgo`, ordered by summed views, descending. |
| Summary.TopFiveIsTop | app/api/analytics/summary/route.ts:112-130 | The top list holds five groups, or all of them when there are fewer. It is ordered by summed views and drawn from the groups. No group left out has more views than one kept. |
| Summary.TopFive | app/api/analytics/summary/route.ts:112-130 | The top list holds at most five groups, ordered by summed views, descending. |
| Summary.WithDetails | app/api/analytics/summary/route.ts:133-152 | Exactly the groups whose property is found survive, in order, each joined with its property's id, title, address and price. |
| Summary.DetailsKeepOrder | app/api/analytics/summary/route.ts:133-152 | Dropping missing properties keeps the rest in ranked order, never adds entries, and each entry keeps its group's id and views. |
| Summary.Get | app/api/analytics/summary/route.ts:4-169 | The reply holds the 30-day totals, the constant sales value 6700000, the rounded trends of the two windows, the reversed chart, the detailed top five and today's half-open counts. |
| AnalyticsLib.GenerateSessionId | lib/analytics.ts:2-7 | A session id starts with 'demo_session_' and ends with '_' and the clock reading. |
| AnalyticsLib.MathRound | app/api/analytics/summary/route.ts:159-160 | `Math.round(y)` is the integer within half of y, with halves rounded up: `Floor(y + 0.5)`. |
| AnalyticsLib.Round2 | app/api/analytics/summary/route.ts:159-160 | `Math.round(x * 100) / 100` lies on the two-decimal grid (r × 100 is a whole number) and within 0.005 of x (exclusive below, inclusive above), which together pin it to the nearest hundredth, halves rounded up. |
| AnalyticsLib.Round2Unique | app/api/analytics/summary/route.ts:159-160 | Any hundredth within (x - 0.005, x + 0.005] equals `Math.round(x * 100) / 100`, so `Round2`'s contract fixes its value. |
| AnalyticsLib.ToFixed1 | lib/analytics.ts:101-122 | `toFixed(1)` ends in a dot and one digit. It starts with '-' exactly for negative numbers, and otherwise with a digit. |
| AnalyticsLib.FormatNumberSuffix | lib/analytics.ts:99-107 | `formatNumber(n)` ends in 'M' exactly when n ≥ 1000000. It ends in 'K' exactly when 1000 ≤ n < 1000000. Below 1000 it is `n.toString()`. |
| AnalyticsLib.FormatNumber | lib/analytics.ts:99-107 | The text is never empty. It ends in 'M' from a million up and in 'K' from a thousand to under a million. |
| AnalyticsLib.FormatTrend | lib/analytics.ts:120-123 | The text ends in '%' and starts with '+' exactly when the trend is positive. |
| AnalyticsLib.FormatNumberExamples | lib/analytics.ts:99-107 | 1500 gives '1.5K', 2500000 gives '2.5M' and 999 gives '999'. |
| AnalyticsLib.FormatTrendExamples | lib/analytics.ts:120-123 | 12.34 gives '+12.3%', -5 gives '-5.0%' and 0 gives '0.0%'. |
| SeedUtils.SessionPool | prisma/seedUtils.ts:57-67 | The pool holds exactly `count` ids, each starting with 'demo_session_'. |
| SeedUtils.CreateSessionPool | prisma/seedUtils.ts:57-67 | The loop builds the `SessionPool` (no ids for a count below 1). |
| SeedUtils.SeedViewOnItsDay | prisma/seedUtils.ts:20-44 | A view generated for day offset k lies in the inclusive window of day `today - k`. |
| SeedUtils.DayViews | prisma/seedUtils.ts:26-46 | One view per draw of the day. |
| SeedUtils.SeedViewsBounds | prisma/seedUtils.ts:19-47 | Each day offset contributes between 5 and 49 views. Every view uses a pooled session and falls on one of the last `daysBack` days. |
| SeedUtils.SeedViews | prisma/seedUtils.ts:19-47 | `n` day offsets produce between 5n and 49n views. |
| SeedUtils.PushDayViews | prisma/seedUtils.ts:26-46 | The inner loop pushes exactly the day's views. |
| SeedUtils.CollectViews | prisma/seedUtils.ts:19-47 | The outer loop pushes exactly the generated views of all days. |
| SeedUtils.GenerateListingViews | prisma/seedUtils.ts:8-55 | The views are appended to the log and their number is returned, between 5 and 49 per day. When there are days but no properties, the function throws before writing. |
| SeedUtils.ActiveRowsBounds | prisma/seedUtils.ts:145-182 | At most one row per property per day. Every row has views or inquiries, the day's date, and no more distinct visitors than views. |
| SeedUtils.ActiveRows | prisma/seedUtils.ts:136-183 | At most one row per property, each with views or inquiries and dated the day counted. |
| SeedUtils.ActiveRowsSound | prisma/seedUtils.ts:145-179 | Every emitted row is the inclusive-window count of some property. |
| SeedUtils.ActiveRowsComplete | prisma/seedUtils.ts:171-179 | Every property with views or inquiries that day gets its row. |
| SeedUtils.GeneratePropertyAnalyticsForDay | prisma/seedUtils.ts:136-183 | The loop emits exactly the active rows of the day. |
| SeedUtils.SeedSummaries | prisma/seedUtils.ts:77-108 | There is one global row per day offset. |
| SeedUtils.SeedSummariesSnoc | prisma/seedUtils.ts:102-108 | Each pass pushes that day's inclusive-window summary. |
| SeedUtils.SeedSummariesOnePerDay | prisma/seedUtils.ts:77-123 | Row k is the inclusive count of day `today - k`, dated that day, so the batch's dates are unique. |
| SeedUtils.SeedPropertyRowsSnoc | prisma/seedUtils.ts:110-118 | Each pass appends that day's active rows. |
| SeedUtils.SeedPropertyRowsCount | prisma/seedUtils.ts:145-182 | At most `daysBack × properties.length` per-property rows are produced. |
| SeedUtils.SeedPropertyRowsBounds | prisma/seedUtils.ts:146-178 | Every produced row is active, has no more visitors than views, and is dated within the last `daysBack` days. |
| SeedUtils.SeedPropertyRows | prisma/seedUtils.ts:77-119 | Every per-property row of the seed has views or inquiries and is dated within the last `n` days. |
| SeedUtils.CollectDailyRows | prisma/seedUtils.ts:77-119 | The loop collects exactly the summaries and the per-property rows. |
| SeedUtils.GenerateDailyAnalytics | prisma/seedUtils.ts:69-134 | The summaries are inserted, then the per-property rows. Each `createMany` fails on a key clash and leaves its table untouched. The log tables never change. |
| SeedUtils.SeedCountsLastMillisecond | prisma/seedUtils.ts:82-99 | A view at 23:59:59.999Z is counted by the seed script's day but not by the routes' day. |
| SeedUtils.ClearAnalyticsData | prisma/seedUtils.ts:185-193 | The views and both roll-up tables are emptied; properties and inquiries stay. |
| SeedUtils.SeedAnalyticsData | prisma/seedUtils.ts:195-213 | Without `clearExisting` (the default) the three analytics tables only grow. With it, a successful seed leaves exactly `daysBack` summaries. Properties and inquiries are never touched. On success the base is the stored tables, or the cleared ones under `clearExisting`. The views become the base views plus the generated `SeedViews`. The summaries and per-property rows become the base ones plus `SeedSummaries` and `SeedPropertyRows`, both counted over those new views. The outcome and the new tables are always those of `SeedRun`. |
| SeedUtils.SeedRun | prisma/seedUtils.ts:195-213 | The seed succeeds exactly when both `createMany` batches insert on the base. Without properties (and with days to seed) it fails with a TypeError after the optional clear. A clash in the summaries keeps the new views. A clash in the per-property rows also keeps the new summaries. Properties and inquiries never change, and a success adds `daysBack` summaries. |
| SeedUtils.ReseedWithoutClearFails | prisma/seedUtils.ts:102-123 | Seeding again without `clearExisting`, once today's summary is stored, fails with the unique violation on `date`. The views of the failed run stay in the log and nothing else changes. |
| DashboardStats.StatusCountsBounded | app/api/dashboard/stats/route.ts:14-20 | The counts of two different statuses together never exceed the number of listings. |
| DashboardStats.ConversionRate | app/api/dashboard/stats/route.ts:54-57 | The rate is 0 without active listings. Otherwise it is within 0.005 of `newInquiries / active × 100`, on the two-decimal grid, so it is `Math.round(newInquiries / active × 100 × 100) / 100`. It is never negative. |
| DashboardStats.DaysOnMarket | app/api/dashboard/stats/route.ts:71-75 | The day difference is the floor of the listed-to-updated time in days. |
| DashboardStats.AverageTimeOnMarket | app/api/dashboard/stats/route.ts:68-81 | The value is 45 when nothing is sold, and otherwise the mean of the floored day differences rounded half up. |
| DashboardStats.Get | app/api/dashboard/stats/route.ts:5-95 | The listing counts are the counts by status. `soldThisMonth` counts the sold properties updated since the month's start and `totalValueSold` sums those same prices. `newInquiries` counts this month's inquiries. `averageViews` lies in 150..349, and the rate and time on market are as above. |
| DashboardStats.SoldThisMonth | app/api/dashboard/stats/route.ts:23-28 | Every property counted as sold this month is stored, has status 'sold' and was updated on or after the month's start. |
| DashboardStats.NewInquiries | app/api/dashboard/stats/route.ts:44-48 | Every inquiry counted as new is stored and was created on or after the month's start. |
| DashboardStats.ValueSoldNonNegative | app/api/dashboard/stats/route.ts:38-41 | With non-negative prices the value sold is non-negative. |
| Activity.AgentInquiries | app/api/agent/dashboard/activity/route.ts:26-43 | Position by position, the selected inquiries are exactly the inquiries of the table whose property is stored and belongs to the agent, in table order. Each comes with that property. |
| Activity.AgentInquiriesComplete | app/api/agent/dashboard/activity/route.ts:26-43 | Every stored inquiry on one of the agent's properties is selected. |
| Activity.RecentListings | app/api/agent/dashboard/activity/route.ts:12-23 | The listings shown number at most five and are ordered by `createdAt`, newest first. |
| Activity.RecentListingsSelection | app/api/agent/dashboard/activity/route.ts:12-23 | Every listing shown is stored and belongs to the agent. |
| Activity.RecentListingsAreLatest | app/api/agent/dashboard/activity/route.ts:12-23 | No listing of the agent left out was created later than one shown. |
| Activity.RecentInquiries | app/api/agent/dashboard/activity/route.ts:26-43 | The inquiries shown number at most five and are ordered by `createdAt`, newest first. |
| Activity.RecentInquiriesSelection | app/api/agent/dashboard/activity/route.ts:26-43 | Every inquiry shown is stored, lies on one of the agent's properties and comes with that property. |
| Activity.RecentInquiriesAreLatest | app/api/agent/dashboard/activity/route.ts:26-43 | No inquiry on the agent's properties left out is newer than one shown. |
| Activity.RecentUpdates | app/api/agent/dashboard/activity/route.ts:46-69 | The updates shown number at most five and are ordered by `updatedAt`, newest first. |
| Activity.Activities | app/api/agent/dashboard/activity/route.ts:72-127 | The three pushes produce at most fifteen items before sorting. |
| Activity.ListingItems | app/api/agent/dashboard/activity/route.ts:72-82 | One item per listing. |
| Activity.InquiryItems | app/api/agent/dashboard/activity/route.ts:85-95 | One item per inquiry. |
| Activity.StatusItems | app/api/agent/dashboard/activity/route.ts:98-112 | One item per update. |
| Activity.ListingItemAt | app/api/agent/dashboard/activity/route.ts:72-82 | The item at position i is built from the listing at position i. |
| Activity.InquiryItemAt | app/api/agent/dashboard/activity/route.ts:85-95 | The item at position i is built from the inquiry at position i. |
| Activity.StatusItemAt | app/api/agent/dashboard/activity/route.ts:98-112 | The item at position i is built from the update at position i. |
| Activity.ListingItemsSnoc | app/api/agent/dashboard/activity/route.ts:72-82 | One more listing adds its item at the end. |
| Activity.InquiryItemsSnoc | app/api/agent/dashboard/activity/route.ts:85-95 | One more inquiry adds its item at the end. |
| Activity.StatusItemsSnoc | app/api/agent/dashboard/activity/route.ts:98-112 | One more update adds its item at the end. |
| Activity.PushListings | app/api/agent/dashboard/activity/route.ts:72-82 | The `forEach` appends exactly the listing items, in order. |
| Activity.PushInquiries | app/api/agent/dashboard/activity/route.ts:85-95 | The `forEach` appends exactly the inquiry items, in order. |
| Activity.PushUpdates | app/api/agent/dashboard/activity/route.ts:98-127 | The `forEach` appends exactly the status items; the switched-off price branch adds nothing. |
| Activity.Get | app/api/agent/dashboard/activity/route.ts:7-136 | The feed is the first ten of the pushed items, sorted by timestamp descending. |
| Activity.ActivityCount | app/api/agent/dashboard/activity/route.ts:12-69 | Each source holds at most five entries, so at most fifteen items exist before the cut. |
| Activity.FeedIsNewest | app/api/agent/dashboard/activity/route.ts:129-134 | The feed holds at most ten items, newest first, all taken from the pushed ones. No item left out is newer than one kept. |
| Activity.ListingItemsKind | app/api/agent/dashboard/activity/route.ts:72-82 | A listing item has kind 'listing', id 'listing-' plus the property id, description '<title> was listed' and the creation timestamp. |
| Activity.InquiryItemsKind | app/api/agent/dashboard/activity/route.ts:85-95 | An inquiry item has kind 'inquiry', id 'inquiry-' plus the inquiry id, description 'New inquiry for <title>' and the inquiry's timestamp. |
| Activity.StatusItemsKind | app/api/agent/dashboard/activity/route.ts:98-112 | A status item has kind 'status_change', an id starting 'status-<id>-', description '<title> status changed to <status>' and the update timestamp. |
| Activity.StatusIdPrefix | app/api/agent/dashboard/activity/route.ts:104 | The status item's id starts with 'status-', the property id and '-'. |
| Activity.StatusItemsMatchUpdates | app/api/agent/dashboard/activity/route.ts:98-127 | The pushed items hold exactly one 'status_change' item per recent update. |
| Activity.NoPriceUpdates | app/api/agent/dashboard/activity/route.ts:114-127 | No pushed item is a 'price_update'. |
| Activity.KindAbsent | app/api/agent/dashboard/activity/route.ts:72-127 | A kind that none of the three pushed lists holds is not in the feed before sorting. |
| Activity.RecentUpdatesSelection | app/api/agent/dashboard/activity/route.ts:46-69 | The update list holds at most five of the agent's properties, ordered by `updatedAt` descending. Each was updated within the last seven days and created before them. |
| Activity.RecentUpdatesAreLatest | app/api/agent/dashboard/activity/route.ts:58-59 | No qualifying update left out was updated later than one kept. |
| PropertiesRoute.MissingFields | app/api/properties/route.ts:41-50 | The successive pushes build exactly the list of missing fields, in the fixed order of the checks. |
| PropertiesRoute.Check | app/api/properties/route.ts:42-50 | One `if (...) push` step extends the missing list of the fields checked so far by the next field when it is missing. |
| PropertiesRoute.MissingSteps | app/api/properties/route.ts:42-50 | The missing list of the checks so far grows by one field exactly when that field is missing. |
| PropertiesRoute.MissingIsOrdered | app/api/properties/route.ts:41-50 | The missing fields are reported in the order title, price, address, bedrooms, bathrooms, description, status. |
| PropertiesRoute.MissingMember | app/api/properties/route.ts:42-50 | A field is in the list exactly when its check fails. |
| PropertiesRoute.AllFieldsRequired | app/api/properties/route.ts:42-50 | Every field of the body that the route checks is one of the seven required ones. |
| PropertiesRoute.NoneMissing | app/api/properties/route.ts:42-52 | The list is empty exactly when title, address, description and status are non-empty, price is non-zero, and bedrooms and bathrooms are present. |
| PropertiesRoute.ZeroPriceIsMissing | app/api/properties/route.ts:43-48 | A price of 0 is missing while zero bedrooms and bathrooms are not. |
| PropertiesRoute.ZeroPriceMessage | app/api/properties/route.ts:52-58 | The 400 message for such a body is 'Missing required fields: price'. |
| PropertiesRoute.Names | app/api/properties/route.ts:55 | Each field is written with its name, in order. |
| PropertiesRoute.NewProperty | app/api/properties/route.ts:61-75 | The created property belongs to `MOCK_AGENT_ID` and carries the submitted fields. `sqft` is null exactly when falsy, `propertyType` is null exactly when absent or empty, and it is listed today. |
| PropertiesRoute.Get | app/api/properties/route.ts:8-11 | The method returns exactly the active properties, as a permutation, newest first. |
| PropertiesRoute.Post | app/api/properties/route.ts:23-78 | A non-empty missing list gives 400 with the names joined by ', ' and changes nothing. Otherwise the property is appended and returned with 201. An id that is already taken gives 500 and changes nothing. |
| PropertiesRoute.CreateKeepsIdsUnique | app/api/properties/route.ts:61-75 | Appending a property with a fresh id keeps the ids unique. |
| PropertyFilters.MinPrice | hooks/usePropertyFilters.ts:30 | `Math.min(...prices)` is a price of the list and at most every price. |
| PropertyFilters.MaxPrice | hooks/usePropertyFilters.ts:30 | `Math.max(...prices)` is a price of the list and at least every price. |
| PropertyFilters.MinMaxPrice | hooks/usePropertyFilters.ts:27-31 | The range is [0, 2000000] for no properties, and otherwise [min price, max price] with min ≤ max. |
| PropertyFilters.PricesWithinMinMax | hooks/usePropertyFilters.ts:27-31 | Every price lies within `minMaxPrice`. |
| PropertyFilters.FilterBedrooms | hooks/usePropertyFilters.ts:49-57 | The bedrooms step narrows the price-filtered list to the properties passing both tests. |
| PropertyFilters.FilterLocation | hooks/usePropertyFilters.ts:59-66 | The location step narrows it to the full filter result. |
| PropertyFilters.Filters.constructor | hooks/usePropertyFilters.ts:22-38 | Once loaded, the filters start at 'any', '' and `minMaxPrice`, and nothing is filtered out. |
| PropertyFilters.Filters.ApplyFilters | hooks/usePropertyFilters.ts:41-69 | The filter effect sets `filteredProperties` to the filter of the current inputs and changes no input. |
| PropertyFilters.Filters.SetProperties | hooks/usePropertyFilters.ts:33-38 | New properties reset the price range to their `minMaxPrice` when non-empty, and the filter re-runs. |
| PropertyFilters.Filters.SetPriceRange | hooks/usePropertyFilters.ts:44-47 | A new price range re-runs the filter. |
| PropertyFilters.Filters.SetBedrooms | hooks/usePropertyFilters.ts:49-57 | A new bedrooms choice re-runs the filter. |
| PropertyFilters.Filters.SetLocation | hooks/usePropertyFilters.ts:59-66 | A new location text re-runs the filter. |
| PropertyFilters.FilteredIsSubsequence | hooks/usePropertyFilters.ts:42-68 | The result is an order-preserving subsequence of the properties. |
| PropertyFilters.FilteredKeeps | hooks/usePropertyFilters.ts:45-66 | A property is kept, with all its copies, exactly when its price is in the inclusive range and the bedrooms and location tests hold. |
| PropertyFilters.Filtered | hooks/usePropertyFilters.ts:41-68 | The result is no longer than the listings, and every listing in it is one of them and passes the price, bedrooms and location tests. |
| PropertyFilters.BedroomsAtLeast | hooks/usePropertyFilters.ts:50-53 | 'N+' keeps exactly the properties with at least N bedrooms. |
| PropertyFilters.BedroomsExactly | hooks/usePropertyFilters.ts:50-56 | 'N' keeps exactly the properties with N bedrooms, and 'any' keeps every property. |
| PropertyFilters.UnreadableBedroomsKeepNothing | hooks/usePropertyFilters.ts:51-56 | A choice `parseInt` cannot read (NaN) keeps nothing. |
| PropertyFilters.BlankLocationKeepsAll | hooks/usePropertyFilters.ts:60 | A location of only whitespace applies no filter. |
| PropertyFilters.DefaultsKeepAll | hooks/usePropertyFilters.ts:34-38 | With the loaded defaults ('any', '', `minMaxPrice`) nothing is filtered out. |
| InquiryState.SetRead | hooks/useInquiries.ts:53-57 | The `map` sets `isRead` to the value on exactly the inquiries with that id, and keeps every other inquiry, the order and the length. |
| InquiryState.SetReadIdempotent | providers/InquiriesProvider.tsx:59-63 | Marking read twice is marking read once. |
| InquiryState.SetReadLastWins | hooks/useInquiries.ts:53-80 | Of two toggles of the same id, the later one wins. |
| InquiryState.SetReadUnknownId | hooks/useInquiries.ts:53-57 | An id that no inquiry has changes nothing. |
| InquiryState.SetReadCount | hooks/useInquiries.ts:40-89 | Marking read never raises the unread count, and marking unread never lowers it. |
| InquiryState.UnreadCount | hooks/useInquiries.ts:87-89 | The unread count never exceeds the list length. |
| InquiryState.UnreadCountIsCount | hooks/useInquiries.ts:87-89 | The length of the `!isRead` filter equals a direct count of the unread inquiries. |
| InquiryState.InquiryList.constructor | hooks/useInquiries.ts:15-17 | The state starts as an empty list, loading, and with no error. |
| InquiryState.InquiryList.FetchInquiries | hooks/useInquiries.ts:19-34 | Loading is false afterwards. Only an ok reply replaces the list, and it clears the error. A non-ok reply records 'Failed to fetch inquiries', a rejected fetch records its message, and both keep the list. |
| InquiryState.InquiryList.MarkAsRead | hooks/useInquiries.ts:40-61 | An ok reply marks exactly the matching inquiries read. A non-ok reply records 'Failed to mark inquiry as read', a rejected request records its message, and both keep the list. |
| InquiryState.InquiryList.MarkAsUnread | hooks/useInquiries.ts:63-84 | This is the same as `MarkAsRead` with the flag cleared, and a failure records 'Failed to mark inquiry as unread'. |
| InquiryState.InquiryList.UnreadInquiriesCount | providers/InquiriesProvider.tsx:92-94 | `unreadInquiriesCount` is the number of unread inquiries, at most the list length. |
| InquiriesProvider.UseInquiriesContext | providers/InquiriesProvider.tsx:113-121 | Outside the provider the hook throws 'useInquiriesContext must be used within an InquiriesProvider'; inside it returns the provider's state. |
| UseConfirm.ConfirmDialog.constructor | hooks/useConfirm.ts:4-8 | The dialog starts closed, idle and with nothing pending. |
| UseConfirm.ConfirmDialog.Confirm | hooks/useConfirm.ts:10-13 | `confirm` stores the action and opens the dialog. |
| UseConfirm.ConfirmDialog.HandleConfirm | hooks/useConfirm.ts:15-30 | With nothing pending it does nothing. A resolved action closes the dialog and clears it. A rejected one is re-thrown and leaves the dialog open and the action pending. Loading is false on every path. |
| UseConfirm.ConfirmDialog.HandleCancel | hooks/useConfirm.ts:32-35 | `handleCancel` closes the dialog and clears the pending action. |
| UseConfirmClosing.ConfirmDialog.constructor | hooks/use-confirm.ts:4-8 | The dialog starts closed, idle and with nothing pending. |
| UseConfirmClosing.ConfirmDialog.Confirm | hooks/use-confirm.ts:10-13 | `confirm` stores the action and opens the dialog. |
| UseConfirmClosing.ConfirmDialog.HandleConfirm | hooks/use-confirm.ts:15-26 | With nothing pending it does nothing. Otherwise, resolved or rejected, the dialog ends closed, with nothing pending and not loading, and a rejection still reaches the caller. |
| UseConfirmClosing.ConfirmDialog.HandleCancel | hooks/use-confirm.ts:28-31 | `handleCancel` closes the dialog and clears the pending action. |
| DashboardUtils.IndexOf | lib/dashboardUtils.tsx:20 | The position of the first `_`, or the length when there is none. |
| DashboardUtils.ReplaceFirst | lib/dashboardUtils.tsx:20 | `replace('_', ' ')` on a string keeps its length. |
| DashboardUtils.ReplaceFirstSpec | lib/dashboardUtils.tsx:20 | Only the first '_' becomes a space; every other character stays. |
| DashboardUtils.ReplaceFirstAt | lib/dashboardUtils.tsx:20 | The replacement splices a space in at the first '_'. |
| DashboardUtils.ReplaceFirstAbsent | lib/dashboardUtils.tsx:20 | Without a '_' the string is unchanged. |
| DashboardUtils.FormatActivityType | lib/dashboardUtils.tsx:19-21 | The label has the length of the type, and its first character is upper-cased. |
| DashboardUtils.FormatActivityTypeSpec | lib/dashboardUtils.tsx:19-21 | After the first character, the first '_' becomes a space and every other character is kept. |
| DashboardUtils.SplitLabel | lib/dashboardUtils.tsx:19-21 | 'h' + a + '_' + b becomes 'H' + a + ' ' + b when a holds no '_'. |
| DashboardUtils.PlainLabel | lib/dashboardUtils.tsx:19-21 | A type without '_' only has its first character upper-cased. |
| DashboardUtils.PriceUpdateLabel | lib/dashboardUtils.tsx:19-21 | 'price_update' becomes 'Price update'. |
| DashboardUtils.StatusChangeLabel | lib/dashboardUtils.tsx:19-21 | 'status_change' becomes 'Status change'. |
| DashboardUtils.ListingLabel | lib/dashboardUtils.tsx:19-21 | 'listing' becomes 'Listing'. |
| DashboardUtils.InquiryLabel | lib/dashboardUtils.tsx:19-21 | 'inquiry' becomes 'Inquiry'. |
| DashboardUtils.OnlyFirstUnderscore | lib/dashboardUtils.tsx:20 | 'a_b_c' becomes 'A b_c'. |
| AppSidebar.GetIsActive | components/dashboard/AppSidebar.tsx:135-142 | An item with no link, or with the empty link, is never active. An exact match always is. '/dashboard' is active only on an exact match, and any other link is active on every path that starts with it. |
| AppSidebar.BadgeText | components/dashboard/AppSidebar.tsx:75-78 | A badge shows exactly when the count is positive. It reads '99+' exactly when the count is above 99, and otherwise the count, in at most two digits. |
| AppSidebar.NatToStringShort | components/dashboard/AppSidebar.tsx:77 | A count up to 99 is written with one or two digits. |
| AppSidebar.NavItems | components/dashboard/AppSidebar.tsx:118-128 | There are four main items. |
| AppSidebar.OnlyInquiriesHasBadge | components/dashboard/AppSidebar.tsx:118-128 | Only the Inquiries item can show a badge, and it does exactly when there are unread inquiries. The Settings and Logout items never show one. |
| AppSidebar.ListingsPageHighlight | components/dashboard/AppSidebar.tsx:135-142 | Under '/dashboard/listings' the Listings item is active, while the overview and Logout are not. |
| AuthProvider.Restore | providers/AuthProvider.tsx:21-36 | The mount effect restores the mock agent exactly when storage is readable and holds `MOCK_AGENT_ID`. |
| AuthProvider.SlotAfterLogin | providers/AuthProvider.tsx:38-53 | The slot holds the id after a mock login with working storage, and is otherwise unchanged. |
| AuthProvider.SlotAfterLogout | providers/AuthProvider.tsx:55-66 | Logging out empties the slot when storage works, and otherwise leaves it. |
| AuthProvider.SessionRoundTrip | providers/AuthProvider.tsx:21-66 | A login is restored on the next mount and a logout is not. |
| AuthProvider.Auth.constructor | providers/AuthProvider.tsx:18-19 | The first render has no agent and is loading. |
| AuthProvider.Auth.Init | providers/AuthProvider.tsx:21-36 | The mount effect sets the agent when the slot holds the mock id, and ends loading in every case. |
| AuthProvider.Auth.Login | providers/AuthProvider.tsx:38-53 | `login(MOCK_AGENT_ID)` sets the agent even if storage fails, and stores the id when it can. Any other id changes nothing. |
| AuthProvider.Auth.Logout | providers/AuthProvider.tsx:55-66 | `logout` clears the agent and removes the stored id when storage works. |
| AuthProvider.UseAuth | providers/AuthProvider.tsx:75-80 | Outside the provider the hook throws 'useAuth must be used within an AuthProvider'; inside it returns the context. |
| PhoneFormat.Digits | __tests__/utils.test.ts:87-108 | Stripping non-digits leaves only digits and never lengthens the input. |
| PhoneFormat.Kept | __tests__/utils.test.ts:82-85 | The kept text is all digits and is a prefix of the input's digits: the first ten, or all of them when there are fewer. |
| PhoneFormat.FormatKeepsDigits | __tests__/utils.test.ts:58-85 | The output's digits are exactly the kept digits, in order. Its length is the digit count plus one past three digits and plus two past six: the two dashes, and nothing else. |
| PhoneFormat.FormatPhoneNumber | __tests__/utils.test.ts:58-110 | The formatted number is never longer than `ddd-ddd-dddd` (12 characters). |
| PhoneFormat.FormatDashPositions | __tests__/utils.test.ts:69-80 | Position 3 holds a dash once more than three digits are kept, and position 7 once more than six are. Every other position holds a digit. |
| PhoneFormat.FourToSixDigitsLayout | __tests__/utils.test.ts:69-73 | Four to six digits give the first three, a dash, then the rest. |
| PhoneFormat.SevenToNineDigitsLayout | __tests__/utils.test.ts:75-80 | Seven to nine digits give three digits, a dash, three digits, a dash, then the rest. |
| PhoneFormat.DigitsAroundDash | __tests__/utils.test.ts:69-80 | A dash adds no digit. |
| PhoneFormat.DigitsOfAllDigits | __tests__/utils.test.ts:63-67 | A string of digits is its own digit sequence. |
| PhoneFormat.FormatIdempotent | __tests__/utils.test.ts:87-92 | Formatting a formatted number changes nothing. |
| PhoneFormat.OnlyDigitsMatter | __tests__/utils.test.ts:87-108 | Two inputs with the same digits format the same. |
| PhoneFormat.NonDigitIgnored | __tests__/utils.test.ts:94-108 | A non-digit anywhere in the input changes nothing. |
| PhoneFormat.FormatFitsPattern | components/listings/PropertyInquiryForm.tsx:34 | The output is in the form's `ddd-ddd-dddd` shape exactly when the input has at least ten digits. |
| PhoneFormat.TruncatesToTen | __tests__/utils.test.ts:82-85 | Digits past the tenth do not matter. |
| PhoneFormat.TenDigitsLayout | __tests__/utils.test.ts:75-80 | Ten digits give 'ddd-ddd-dddd'. |
| PhoneFormat.EmptyExample | __tests__/utils.test.ts:59-61 | '' formats to ''. |
| PhoneFormat.ShortExample | __tests__/utils.test.ts:63-67 | '123' is returned unchanged. |
| DateUtils.TimeAgoBuckets | __tests__/dateUtils.test.ts:14-75 | The output is 'Just now' under two minutes, including future dates. From 2 to 59 minutes it is '<n> minutes ago'; at 1 hour, '1 hour ago'; from 2 to 23 hours, '<n> hours ago'; at 1 day, '1 day ago'; from 2 to 6 days, '<n> days ago'. From seven days on it is the calendar date. |
| DateUtils.FormatTimeAgo | __tests__/dateUtils.test.ts:14-75 | Under two minutes (and for future dates) the text is 'Just now'. From two minutes to under seven days it ends in ' ago'. From seven days on it is the calendar date. |
| DateUtils.TimeAgoMinuteExamples | __tests__/dateUtils.test.ts:15-33 | 30 s, 60 s and a future date give 'Just now'. 2, 30 and 59 minutes give '<n> minutes ago'. |
| DateUtils.TimeAgoHourExamples | __tests__/dateUtils.test.ts:35-48 | 1, 2, 12 and 23 hours give '1 hour ago' and '<n> hours ago'. |
| DateUtils.TimeAgoDayExamples | __tests__/dateUtils.test.ts:50-69 | 1, 2 and 6 days give '1 day ago' and '<n> days ago'; 7 days gives the calendar date. |

## Left out

- **Ambient state.** The clock, randomness, locale and the network are parameters. Three routes read the clock more than once; the model reads it once per request. The seed script also reads the clock once per seeded day (`new Date()` in `generateListingViews`) and once per pooled session id (`Date.now() + i` in `createSessionPool`); the model reads it once per run, as the single `now`.
- **Time zone and locale.** Three library calls are not modelled:
  - `new Date(y, m, 1)` for the start of the month is the `monthStart` parameter;
  - `toLocaleDateString()` is the opaque `calendar` string;
  - the `setDate`/`setHours` arithmetic of the seed script is a UTC day offset plus an hour and a minute.
- **Floating point.** Trends, rates and averages are reals, and `Math.round(y)` is `Floor(y + 0.5)`. `toFixed(1)` is modelled on a real rounded to tenths, not on IEEE doubles.
- **Unicode.** Case mapping covers ASCII letters only: `toLowerCase` and `toUpperCase` leave every other character unchanged.
  - `trim` is modelled in full. It removes the ECMAScript WhiteSpace and LineTerminator characters (`Strings.IsWhitespace`): tab, line feed, vertical tab, form feed, carriage return, space, U+00A0, U+1680, U+2000–U+200A, U+2028, U+2029, U+202F, U+205F, U+3000 and U+FEFF.
  - `\D` is "not one of 0–9", as in a JavaScript regular expression without the `u` flag.
- **JSON.** Values are typed: numbers arrive as numbers and strings as strings, `None` is a missing or null field, and `response.json()` always parses. `Number(x)` conversions of strings and NaN are not modelled, apart from `parseInt` in the bedrooms filter.
- **Failures.** Database failures (the 500 replies) are not modelled, except the id clash of a property create. Concurrency between requests and partial failure between a write and its recount are outside the model.
- **Inquiries GET.** The inquiries `GET` returns the inquiries without the `include: { property }` join.
- **Sort stability.** Sort stability and the order among equal keys are not stated. Every sort is specified as sorted and a permutation.
- **Price branch.** The activity route's price-change branch is switched off in the code (`isPriceChange = false`). It is modelled as pushing nothing.
- **Unused values.** `startOfWeek` in the stats route is computed but never used. The random `averageViews` is the `viewDraw` parameter.
- **Multiple `formatTimeAgo` readings.** Each `formatTimeAgo` call in the activity route reads the clock itself; the model uses the request's one `now`.
- **Debounce.** `trackListingView`'s debounce and the fetch helpers of lib/analytics.ts are not modelled. `formatCurrency`, `formatDate`, `formatDateTime` and `cn` are not modelled either.
- **Form validation.** The form schemas are not modelled, except the phone pattern of the inquiry form.
- **Dates and ids.**
  - `dateListed` is a day number rather than an ISO date string.
  - `DaysOnMarket` measures from the listed day's UTC midnight.
  - The random part of a session id, and the one of the seed's pool ids, are parameters.
- **React scheduling.** Effects are modelled as re-running the filter inside each setter of `Filters`. The intermediate loading states of an async call are not observable, and neither are stale closures or repeated renders.
- **Duplicated provider state.** `useInquiries` and `InquiriesProvider` run the same state code, so one class (`InquiryState.InquiryList`) models both.
- **PhoneFormat.** `formatPhoneNumber` and `formatTimeAgo` are modelled from the behaviour fixed by __tests__/utils.test.ts and __tests__/dateUtils.test.ts. `PhoneFormat` states general lemmas instead of each literal test string; the literal strings of the stripping tests reduce to those lemmas.
- **PropertiesRoute.ZeroPriceMessage.** Only the single-field message is worked out. The message for every field missing follows from `MissingIsOrdered` and `Names`.
- **Half-open window.** The routes' window ends at 23:59:59.999Z exclusive, so a view or inquiry stamped at the day's last millisecond is stored but counted by no day. The model follows the code; see `TrackView.LastMillisecondNotCounted` and `SeedUtils.SeedCountsLastMillisecond`.
- AnalyticsLib.FormatNumber: takes an integer. `formatNumber` also accepts fractions, but every call site passes a count.
- **Rounding direction.** Halves are rounded toward +∞ (`Math.round`), as the code does, rather than away from zero.
- **Top properties.** They are ranked from the per-property daily rows of the last 30 days, as the code does, not from the raw view log.
