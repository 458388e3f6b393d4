# ScoreApp webhook server — a verified model of its lead handling

The ScoreApp webhook server receives quiz results from ScoreApp, keeps them as
leads in an in-memory store, and serves a dashboard with statistics over a
period. This project models the logic of `server.js`:

- **Lead normalisation** (`Normalizer`). The webhook turns an arbitrary
  payload into a canonical lead.
  - Every field takes the first truthy of its alias keys, else a default.
  - The score is parsed with JavaScript's `parseInt` and dropped when it is
    zero or does not parse.
  - The category comes from `categorizeScore`, and only when `score` itself is
    present.
  - `meetingBooked` is true only for `true` or `"true"`.
- **JavaScript semantics** (`Js`). Payload values, truthiness and `||`,
  `String(v)`, and the global `parseInt`: leading white space, sign, the `0x`
  prefix, the longest digit prefix, and NaN.
- **Statistics** (`Stats`). `calcStats(leads, days)` is modelled as methods
  with the loops of the source:
  - the time window, where `days = 0` means all time;
  - the counts and the three zero-guarded rates;
  - the `utmSources` and `utmCampaigns` group counts;
  - the four-bucket score distribution;
  - the dense daily series seeded with zeros;
  - the 50 newest leads, newest first.
- **The store** (`LeadStore`). The class `Store` holds the leads and the
  instant of the last change. Its methods are the handlers that change or read
  it:
  - the webhook append;
  - `GET /api/stats` with the period→days mapping;
  - `GET /api/leads` with its reverse-then-slice paging;
  - `DELETE /api/leads`.
- **Object-literal counters** (`ObjectCounts`). The group counts as written,
  on objects that inherit from `Object.prototype`. See Findings.

Modelling choices:

- **Time.** The wall clock is a parameter `now`, in integer milliseconds since
  the epoch.
  - A lead's `receivedAt` is that instant.
  - A lead's calendar day is the UTC day `receivedAt / 86400000`, which is what
    `toISOString().split('T')[0]` names.
  - The window keeps leads at or after `now - days·86400000`.
  - The series has one key per calendar day, from `days - 1` days before the
    day of `now` through that day. A lead that is inside the window but falls
    on an earlier day than the first series key is not counted in the series.
    That is why the sum of the series is at most `completed`, and can be less.
- **Numbers.** Payload numbers are integers.
- **Rates.** A rate is either the guard's `'0.0'` or an exact fraction; the
  percentage is that fraction times 100.
- **Maps.** The counts are maps from key to count. A key is the `String()` of
  the value that `||` picked.

The code is followed throughout:

- With no `period` the statistics cover `maaned`, i.e. 30 days.
- `server.js` has no scorecards, no bulk import, no de-duplication and no
  distribution by medium, so none of these is modelled.

## Model

| member | source | states |
|---|---|---|
| `Js.ParseIntOfNumber` | server.js:145 | `parseInt(String(n))` gives back `n` for every integer: a numeric score survives the parse |
| `Js.ParseIntNoDigits` | server.js:66 | a string whose first non-blank character is neither a sign nor a digit parses to NaN (so `parseInt(null)` and `parseInt(undefined)` are NaN) |
| `Js.TrimStart` | server.js:66 | `parseInt` skips exactly the leading white space: the dropped prefix is all white space and what is left does not start with white space |
| `Js.DigitPrefix` | server.js:66 | `parseInt` reads the longest run of digits: a prefix of digits followed by a non-digit or the end |
| `Js.DecimalDigitsParse` | server.js:145 | a run of decimal digits (no `0x` prefix) is read whole as a decimal number |
| `Js.UnsignedDecimalParses` | server.js:145 | a number that starts with a digit needs no trimming and no sign |
| `Js.MinusIsKept` | server.js:145 | a leading minus sign negates what follows |
| `Js.NegativeDecimalParses` | server.js:145 | a minus sign in front of a number that parses gives its negation |
| `Js.ParseIntSign` | server.js:66 | `parseInt` gives a negative number only when a minus sign follows the leading white space |
| `Js.FalsyParsesToNothing` | server.js:171-172 | every falsy value (`undefined`, `null`, `false`, `0`, `""`) parses to NaN or 0, so the `parseInt` fallback gives the default |
| `Js.NatToString` | server.js:125 | the decimal notation of a number (as in `Date.now().toString()`) is a non-empty run of digits |
| `Js.DecimalDigitsValue` | server.js:125 | reading back the decimal notation of `n` gives `n` |
| `Normalizer.CategorizeScore` | server.js:219-224 | step function: ≥80 'Klar til køb', 60–79 'Overvejer', 40–59 'Tidlig fase', anything else (NaN included) 'Ikke klar', each as an if-and-only-if |
| `Normalizer.CategorizeMonotone` | server.js:219-224 | a higher score never gets a lower category |
| `Normalizer.FirstTruthy` | server.js:125-150 | an alias chain of `p.a`, `p.b`, …, then `d`, gives the first truthy alias, every earlier one being falsy, or the default when all are falsy |
| `Normalizer.FalsyHeadSkipped` | server.js:125-150 | a falsy first alias passes the choice on to the rest of the chain |
| `Normalizer.JoinedName` | server.js:129 | `[first, last].filter(Boolean).join(' ')` is empty exactly when both parts are falsy |
| `Normalizer.TruthyPrintsNonEmpty` | server.js:129 | a truthy value never prints as the empty string |
| `Normalizer.ScoreField` | server.js:145 | the stored score is null exactly when the first truthy of `score`, `total_score` and 0 parses to NaN or 0, and otherwise is the number it parses to |
| `Normalizer.ScoreCategoryField` | server.js:147 | the category is empty exactly when `p.score` is falsy |
| `Normalizer.Normalize` | server.js:124-153 | each field of the lead is its alias chain resolved with its own default. id, name and source are never empty. The score is the parsed first truthy of `score` and `total_score`, null exactly when that is NaN or 0. The category is empty iff `p.score` is falsy, and otherwise is `categorizeScore(parseInt(p.score))`. `meetingBooked` holds iff the value is `true` or `"true"`. `receivedAt` is `now` and `raw` is the payload |
| `Normalizer.UtmSourceDrivesSource` | server.js:135-142 | with a truthy `utm_source`, `utmSource` and `source` are both that value |
| `Normalizer.SourceWithoutUtm` | server.js:142 | without `utm_source`, `source` is `p.source`, else 'ScoreApp' |
| `Normalizer.AbsentScore` | server.js:145-147 | no `score` and no `total_score`: score null, category empty |
| `Normalizer.NumericScore` | server.js:145-147 | a non-zero numeric `score` is kept and categorised by its value |
| `Normalizer.DigitStringScore` | server.js:145-147 | a positive score sent as a string of decimal digits is stored as that number and categorised by it |
| `Normalizer.ZeroStringScore` | server.js:145-147 | the string "0" gives a null score and yet the category 'Ikke klar' |
| `Normalizer.UnparseableScore` | server.js:145-147 | a non-empty score that does not parse gives a null score and the category 'Ikke klar' |
| `Normalizer.TotalScoreOnly` | server.js:145-147 | a score sent only as `total_score` is kept but gets no category |
| `Stats.DayOf` | server.js:76-82 | the calendar day of an instant is the whole number of days since the epoch: the day starts at or before the instant and ends after it |
| `Stats.DayOfShift` | server.js:76-78 | going back `i` whole days from an instant goes back `i` calendar days |
| `Stats.Since` | server.js:43 | the filter keeps exactly the leads received at or after the cutoff, and never more leads than it was given |
| `Stats.SinceAppend` | server.js:43 | the filter keeps order: it distributes over concatenation |
| `Stats.Window` | server.js:38-43 | with `days = 0` every lead is kept. Otherwise a lead is kept iff it was received at or after `now - days` days |
| `Stats.FreshLeadInWindow` | server.js:38-43 | a lead received at `now` is in the window of every non-negative `days`, after the older leads |
| `Stats.ContactCount` | server.js:46 | the number of leads with an email or a phone is at most the number of leads |
| `Stats.MeetingCount` | server.js:47 | the number of leads with a booked meeting is at most the number of leads |
| `Stats.ContactCountExtremes` | server.js:46 | the count of leads with an email or a phone is the number of leads iff every lead has one, and 0 iff none has |
| `Stats.MeetingCountExtremes` | server.js:47 | the count of leads with `meetingBooked === true` is the number of leads iff every lead has a meeting, and 0 iff none has |
| `Stats.CountsAppend` | server.js:46-47 | both counts add up over concatenation, so each lead adds one exactly when it qualifies |
| `Stats.CountInDays` | server.js:81-84 | the leads on the days of a range are at most all the leads |
| `Stats.CountInDaysExtend` | server.js:81-84 | widening a day range by one day adds that day's leads |
| `Stats.CountInDaysEmpty` | server.js:81-84 | an empty day range holds no leads |
| `Stats.TotalRemove` | server.js:53 | the sum of a dictionary of counts does not depend on the order the keys are taken in |
| `Stats.TotalIncrement` | server.js:53 | the increment of `counts[k]` (from 0 when absent) adds one to the sum of the counts |
| `Stats.TotalOfZeros` | server.js:64 | counts seeded with zeros sum to zero |
| `Stats.CountStep` | server.js:53 | one more increment of `k` keeps every count equal to the number of occurrences of its key |
| `Stats.GroupCountStep` | server.js:51-54 | one more increment turns the group count of the keys so far into that of one more key, with the sum one larger |
| `Stats.CountBy` | server.js:50-61 | the `forEach` group count gives exactly the keys that occur, each with its number of occurrences, and its counts sum to the number of leads |
| `Stats.SourceKey` | server.js:52 | the source key of a lead is never the empty key |
| `Stats.CampaignKey` | server.js:59 | the campaign key of a lead is never the empty key |
| `Stats.WebhookSourceKey` | server.js:52 | a lead from the webhook is counted under its first truthy `utm_source`, `utmSource` or `source`, else 'ScoreApp'; 'Direkte' is never reached |
| `Stats.WebhookCampaignKey` | server.js:59 | a lead from the webhook is counted under its first truthy `utm_campaign`, `utmCampaign` or `campaign`, else 'Ingen kampagne' |
| `Stats.ScoreOf` | server.js:66 | a null score counts as 0 and a numeric score as itself |
| `Stats.BucketOfScore` | server.js:66-70 | every score falls in one of the four buckets |
| `Stats.BucketsMatchCategories` | server.js:66-70 | the buckets cut the scores at the same thresholds as `categorizeScore` |
| `Stats.BucketsOf` | server.js:65-71 | one bucket per lead |
| `Stats.BucketsOfPrefix` | server.js:65-71 | the buckets of one more lead are the earlier buckets followed by that lead's bucket |
| `Stats.NormalizedBucket` | server.js:66 | a lead normalised from a non-zero numeric score lands in the bucket of its own category |
| `Stats.SeedIsDistribution` | server.js:64 | the seed `{ 'Under 40': 0, … }` holds the four buckets, counts no lead and sums to zero |
| `Stats.DistributionStep` | server.js:67-70 | incrementing one of the four buckets keeps the four keys, the exact counts and the sum |
| `Stats.ScoreDistribution` | server.js:64-71 | `scoreDist` has exactly the four bucket keys. Each holds the number of leads whose parsed score (0 when NaN) falls in it, a missing or unparseable score counting as 0. The four sum to the number of leads |
| `Stats.DailySeries` | server.js:74-84 | the series has `max(days, 0)` entries. Entry `j` counts the leads received on the `j`-th day, from `days - 1` days before today through today |
| `Stats.CountOnDayAppend` | server.js:81-84 | one more lead adds one to the count of its own day only |
| `Stats.SeriesSum` | server.js:96 | a series of per-day counts sums to the leads of those days, hence to at most all the leads |
| `Stats.Reversed` | server.js:97 | `reverse()` puts element `i` at place `n - 1 - i` |
| `Stats.RecentLeads` | server.js:97 | `slice(-50).reverse()` holds `min(50, n)` leads, the `i`-th being the `i`-th newest |
| `Stats.CompletionRate` | server.js:90 | the completion rate is the guard's '0.0' exactly when there are no leads, and otherwise has a positive denominator |
| `Stats.GuardedRate` | server.js:91-92 | the lead and meeting rates are the guard's '0.0' exactly when the denominator is zero; otherwise they never divide by zero |
| `Stats.CompletionRateIsConstant` | server.js:90 | with at least one lead the completion rate is 100/1.8 %, whatever the data |
| `Stats.GuardedRateBounded` | server.js:91-92 | a rate whose numerator counts a subset of its denominator lies between 0 % and 100 % |
| `Stats.MeetingRateAboveHundred` | server.js:92 | the meeting rate is not bounded by 100 %: a lead with contact details and a meeting plus a lead with a meeting but no contact details give 200 % |
| `Stats.Aggregate` | server.js:45-98 | over the filtered leads: `completed` is their number, and `leads` and `meetings` are at most that. The rates carry their guards. Each of `scoreDist`, `utmSources` and `utmCampaigns` counts every lead exactly once and sums to `completed`. The series has one exact count per day and sums to at most `completed`. `recentLeads` is the 50 newest |
| `Stats.CalcStats` | server.js:37-99 | the statistics over the time window of `days` before `now`: `completed` is the window's size, `leads` and `meetings` its contact and meeting counts, the three rates carry their guards, the score, source and campaign counts are exact and each sums to `completed`, the series holds one exact count per day, and `recentLeads` are the 50 newest (`IsStatsOf`) |
| `LeadStore.PeriodOf` | server.js:164 | the period is the query's when truthy, else 'maaned'; never empty |
| `LeadStore.PeriodDays` | server.js:165 | 'dag' gives 1 day, 'uge' 7 and 'maaned' 30, each as an if-and-only-if; any other value gives 0 |
| `LeadStore.DefaultPeriodIsMonth` | server.js:164-165 | a request without a period gets the last 30 days |
| `LeadStore.OtherPeriodIsAllTime` | server.js:164-166 | any other period, 'alle' among them, filters out no lead |
| `LeadStore.Slice` | server.js:173 | a slice is never longer than its sequence and holds only its elements |
| `LeadStore.LimitOf` | server.js:171 | the page size is never 0, and is 50 when the query's `limit` is missing or empty |
| `LeadStore.OffsetOf` | server.js:172 | the offset is 0 when the query's `offset` is missing or empty |
| `LeadStore.NumericQuery` | server.js:171-172 | a `limit` or `offset` written as a decimal integer is read as that integer, except that a `limit` of 0 gives 50 |
| `LeadStore.Paged` | server.js:173 | a page never holds more leads than the store, and only stored leads |
| `LeadStore.Page` | server.js:171-173 | the page for the query's `limit` and `offset` holds only stored leads, at most all of them |
| `LeadStore.PageOfNewest` | server.js:173 | with a positive limit and a non-negative offset, the page holds `min(limit, n - offset)` leads (none past the end), the `i`-th being the `(offset + i)`-th newest |
| `LeadStore.ConsecutivePages` | server.js:173 | two consecutive pages of the same size make up the page twice that size |
| `LeadStore.DefaultPageIsRecent` | server.js:171-173 | the default page equals the statistics' `recentLeads`: the 50 newest, newest first |
| `LeadStore.NegativeLimit` | server.js:171-173 | a negative limit `-k` with no offset gives every lead but the `k` oldest, newest first |
| `LeadStore.Store.constructor` | server.js:12-15 | the store starts with no leads and no last update, and satisfies its invariant |
| `LeadStore.Store.ReceiveWebhook` | server.js:155-160 | the normalised lead is appended after all older ones, `lastUpdated` becomes `now`, the answer is the lead's id (never empty), and every stored lead stays well-formed |
| `LeadStore.Store.ClearAll` | server.js:179-180 | the store holds no leads and `lastUpdated` becomes `now` |
| `LeadStore.Store.GetStats` | server.js:163-168 | the period (by default 'maaned'), the store's `lastUpdated` and its size are answered with exactly the `calcStats` statistics over the window of that period (`IsStatsOf`); `completed` is at most the store's size and equals it for all time, and the series has as many entries as the period has days |
| `LeadStore.Store.ListLeads` | server.js:170-174 | the store's size and the page for the query, never longer than the store; in a valid store every lead on the page is well-formed |
| `LeadStore.ReceivedLeadIsCounted` | server.js:155-166 | a lead just received is counted in the statistics of every period asked for at that instant |
| `ObjectCounts.Increment` | server.js:53 | the increment of `o[k]` on an object literal touches key `k` only, stores `k` unless it is `__proto__`, and adds one to a count already held as a number |
| `ObjectCounts.ObjectCountBy` | server.js:50-54 | the object-literal count holds an own property for exactly the keys that occur, `__proto__` excepted |
| `ObjectCounts.TallyStep` | server.js:53 | an increment on a key that is not inherited counts one more occurrence of it, as a number |
| `ObjectCounts.AsWrittenAgreesOffPrototype` | server.js:50-61 | when no key is an `Object.prototype` name, the object-literal count is the plain tally, as numbers |
| `ObjectCounts.ConstructorKeyCountsText` | server.js:50-54 | a lead with source "constructor" is counted as the text "function Object() { [native code] }1" |
| `ObjectCounts.ProtoKeyIsLost` | server.js:50-54 | a lead with source "__proto__" is counted nowhere |
| `ObjectCounts.ConstructorSourceFromWebhook` | server.js:135 | a webhook payload with `utm_source` "constructor" produces a lead whose source key is "constructor" |

## Left out

- Express routing, CORS, body parsing, HTTP status codes and the `GET /` status route: framework plumbing. The query values of the handlers are parameters of type `Value`.
- The shared-secret checks of the webhook and of `DELETE /api/leads`: string equality on a header.
- `loadData` and `saveData`: file I/O and JSON. The store starts empty, and a store loaded from disk is not modelled.
- `POST /api/test-lead`: it draws from `Math.random`.
- Console logging.
- Local time. `setDate` and `getDate` work in the server's local time zone, while `toISOString` works in UTC. The model takes both as UTC and a day as 86 400 000 ms, so daylight-saving shifts are not captured.
- Dates as text. `receivedAt` and `lastUpdated` are instants, not ISO strings. A lead without `receivedAt` (possible only in a file loaded from disk) is not modelled.
- Floating point. Payload numbers are integers. `toFixed(1)` and the rounding of rates are not modelled: a rate is an exact fraction.
- `parseInt` of numbers whose `String()` is exponential or fractional (e.g. `1e21`, `2.5`).
- Arrays and objects as payload values. `Value` holds only scalars, so a nested value such as `score: [85]` (whose `String()` is "85") or `name: {…}` (whose `String()` is "[object Object]") cannot be expressed.
- Object key order. The counts are maps, so the order in which JSON lists their keys (integer-like keys first) is not modelled.
- `LeadStore.Store.ReceiveWebhook`: requires the store invariant `Valid()`. Any store built by the constructor and changed by these methods satisfies it, but a file loaded from disk need not.

## Findings

| source | as written | input that shows it | evidently intended | confidence | as-written member | corrected member |
|---|---|---|---|---|---|---|
| server.js:50-54 | `utmSources` starts as `{}`, so a source named after an `Object.prototype` method reads an inherited function instead of `undefined`, and `+ 1` turns the count into text | a webhook payload with `utm_source: "constructor"`: the count becomes "function Object() { [native code] }1" instead of 1 | a count of 1 for that source (e.g. counting into `Object.create(null)` or a `Map`) | high; not executed | `ObjectCounts.ConstructorKeyCountsText` | `Stats.CountBy` |
| server.js:50-54 | for the source `__proto__` the read gives `Object.prototype`, and the assignment of the resulting text is ignored by the `__proto__` setter | a webhook payload with `utm_source: "__proto__"`: the lead is counted nowhere, so the counts sum to less than `completed` | every lead counted once, the counts summing to `completed` | high; not executed | `ObjectCounts.ProtoKeyIsLost` | `Stats.CountBy` |

The same holds for `utmCampaigns` (server.js:57-61) with `utm_campaign`. `ObjectCounts.AsWrittenAgreesOffPrototype` shows the two agree whenever no key is an inherited name.
