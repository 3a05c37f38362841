# Offen vault statistics, modelled in Dafny

The offen vault computes the numbers shown on an operator's dashboard from
the decrypted events of their users: how many pageviews, visitors, accounts
and sessions there were, what share of the events is anonymous (`loss`),
how many sessions bounced, the average page load time and page depth, the
referrers, campaigns, pages, landing pages, exit pages and active pages
ranked by count, and a retention matrix over periods of events. Every one
of these is a pure reduction over a list of events.

The implementation, `vault/src/stats.js`, is not part of this model. The
model is built from its test suite, `vault/src/stats.test.js`, which fixes
the behaviour of every exported function on concrete events. Each
operation is a Dafny function whose contract states what the result means
(a share, a count of distinct identifiers, a ranked breakdown determined by
its entries, a matrix whose rows follow one cohort), and every test case is
a lemma that proves the model returns the value the test asserts.

Modules:

- `Wrappers`: `Option`.
- `Collections`: occurrences, distinct elements, sums, minimum and maximum
  of sequences.
- `Ratios`: shares and means as exact `real`s.
- `EventModel`: events, their payloads and URLs (`Url` holds the parsed
  components), the JavaScript truthiness of identifiers, the clean URL
  (origin and path, no query or fragment), query parameters, and `Collect`,
  which keeps the values an accessor yields.
- `Grouping`: the `{key, count}` grouped result, ranked by count descending
  and key ascending; `Breakdown` is the only ranked list with those entries.
- `Metrics`: `loss`, `uniqueSessions`, `bounceRate`, `avgPageload`,
  `avgPageDepth`, `pageviews`, `visitors`, `accounts`.
- `Breakdowns`: `referrers`, `campaigns`, `pages`, `landingPages`,
  `exitPages`, `activePages`.
- `MetricRelations`: how the page breakdowns relate to the session and
  visitor counts.
- `Cohorts`: `retention`.
- `CaseEvents`, `MetricCases`, `BreakdownCases`, `PageCases`,
  `RetentionCases`: the test cases, each proved first for any identifiers
  of the same shape and then for the literal ones.

## Model

| member | source | states |
|---|---|---|
| EventModel.Canonical | vault/src/stats.test.js:258-272 | the clean URL is a prefix of the full URL and equals it exactly when there is no query and no fragment |
| EventModel.QueryParam | vault/src/stats.test.js:233-248 | a parameter is absent exactly when no pair has its name, and a found value belongs to a pair with that name |
| EventModel.CollectMembers | vault/src/stats.test.js:141-183 | a value is kept exactly when some event yields it |
| EventModel.OccurrencesOfCollect | vault/src/stats.test.js:207-279 | the kept values hold a key as often as there are events yielding it |
| Grouping.Tally | vault/src/stats.test.js:207-279 | one entry per distinct key with its number of occurrences, counts summing to the number of keys |
| Grouping.Insert | vault/src/stats.test.js:207-279 | inserting an entry under a new key keeps the list ranked with distinct keys and adds exactly that entry |
| Grouping.Rank | vault/src/stats.test.js:207-279 | ranking keeps exactly the same entries and puts them in count-descending, key-ascending order |
| Grouping.Breakdown | vault/src/stats.test.js:207-279 | the grouped result is ranked, has one entry per distinct key with its occurrence count, and its counts sum to the number of keys |
| Grouping.RankedUnique | vault/src/stats.test.js:207-279 | two ranked lists with the same entries are equal |
| Grouping.BreakdownCharacterized | vault/src/stats.test.js:207-279 | any ranked list with the right entries is the grouped result |
| Grouping.BreakdownOrderInsensitive | vault/src/stats.test.js:207-279 | the grouped result depends only on how often each key occurs, not on event order |
| Grouping.KeyLessTotal | vault/src/stats.test.js:345-346 | two different keys are ordered one way and not the other, so equal counts are ordered by key |
| Grouping.KeyLessAt | vault/src/stats.test.js:291-292 | keys that agree up to a position are ordered by their characters there |
| Metrics.Pageviews | vault/src/stats.test.js:141-161 | the count is at most the number of events, equals it exactly when every event is identified, and is 0 exactly when none is |
| Metrics.UserIdsPerPageview | vault/src/stats.test.js:141-161 | there is one collected user identifier per pageview |
| Metrics.Loss | vault/src/stats.test.js:6-33 | the anonymous share lies in [0, 1], is 0 exactly when every event is identified, and on a non-empty list is 1 exactly when none is |
| Metrics.LossComplementsPageviews | vault/src/stats.test.js:6-33 | the anonymous share and the pageview share of a non-empty list add up to 1 |
| Metrics.Visitors | vault/src/stats.test.js:163-183 | the number of distinct truthy user identifiers; at most the pageviews, equal exactly when no user repeats, 0 exactly when there are no pageviews |
| Metrics.Accounts | vault/src/stats.test.js:185-205 | the number of distinct truthy account identifiers; 0 exactly when no event has one |
| Metrics.UniqueSessions | vault/src/stats.test.js:35-57 | the number of distinct session identifiers, compared case-sensitively; 0 exactly when no event has one |
| Metrics.SessionsCover | vault/src/stats.test.js:118-139 | the session events are split among the distinct sessions |
| Metrics.Bounces | vault/src/stats.test.js:59-93 | the bounced sessions are at most all sessions |
| Metrics.BouncesAreSingleEventSessions | vault/src/stats.test.js:59-93 | a bounce is a session identifier occurring exactly once |
| Metrics.BounceRate | vault/src/stats.test.js:59-93 | the bounce share lies in [0, 1], is 0 without sessions or without bounces, and is 1 exactly when no session identifier repeats |
| Metrics.AllSessionsSingle | vault/src/stats.test.js:81-92 | every session bounced exactly when no session identifier repeats |
| Metrics.AvgPageload | vault/src/stats.test.js:95-116 | `None` exactly when no event has a pageload; otherwise the mean lies between the smallest and largest pageload |
| Metrics.AvgPageDepth | vault/src/stats.test.js:118-139 | `None` exactly when there are no sessions; otherwise the session events per session, at least 1 |
| Metrics.DepthOneIffAllBounce | vault/src/stats.test.js:118-139 | the average depth is 1 exactly when the bounce rate is 1 |
| Breakdowns.BreakdownOfCollect | vault/src/stats.test.js:207-279 | a breakdown of collected keys has an entry for each key some event yields, counting those events |
| Breakdowns.ForeignReferrer | vault/src/stats.test.js:208-223 | an event yields its referrer exactly when it has a page URL and a referrer whose host differs from the page's host |
| Breakdowns.Referrers | vault/src/stats.test.js:207-230 | ranked; one entry per foreign referrer host with the number of events from it |
| Breakdowns.ReferrersIgnoreSameHost | vault/src/stats.test.js:215 | an event referred from its own host does not change the referrers |
| Breakdowns.Campaigns | vault/src/stats.test.js:232-255 | ranked; one entry per `utm_campaign` value of a foreign referrer with the number of events carrying it |
| Breakdowns.CampaignsNeedParameter | vault/src/stats.test.js:238 | an event whose referrer has no `utm_campaign` does not change the campaigns |
| Breakdowns.Pages | vault/src/stats.test.js:257-279 | ranked; one entry per clean URL with its number of events, counts summing to the events with a page |
| Breakdowns.PagesIgnoreQueryAndFragment | vault/src/stats.test.js:261-263 | changing an event's query or fragment does not change the pages |
| Breakdowns.EarliestIndex | vault/src/stats.test.js:305-330 | a view of the session with the smallest timestamp, the first one in input order among ties |
| Breakdowns.LatestIndex | vault/src/stats.test.js:332-357 | a view of the session or user with the largest timestamp, the last one in input order among ties |
| Breakdowns.ChosenPages | vault/src/stats.test.js:305-357 | one entry per owner, in owner order, each the page of that owner's chosen view |
| Breakdowns.OccurrencesOfChosen | vault/src/stats.test.js:305-357 | a page is chosen as often as there are owners whose chosen view is on it |
| Breakdowns.BreakdownOfChosen | vault/src/stats.test.js:305-357 | the breakdown of chosen pages counts, per page, the owners choosing it, and totals the number of owners |
| Breakdowns.DistinctOwners | vault/src/stats.test.js:305-330 | every session or user once |
| Breakdowns.LongOwners | vault/src/stats.test.js:332-357 | every session with at least two views, once |
| Breakdowns.LandingPages | vault/src/stats.test.js:305-330 | ranked; per clean URL, the number of sessions whose earliest view is on it; counts total the sessions |
| Breakdowns.ExitPages | vault/src/stats.test.js:332-357 | ranked; per clean URL, the number of sessions with two or more views whose latest view is on it |
| Breakdowns.ActivePages | vault/src/stats.test.js:281-296 | ranked; per clean URL, the number of users whose latest view is on it; counts total the users |
| MetricRelations.OwnersOfSessionVisits | vault/src/stats.test.js:305-330 | when every session event has a page and a timestamp, the session views are the session events |
| MetricRelations.OwnersOfUserVisits | vault/src/stats.test.js:281-296 | when every identified event has a page and a timestamp, the user views are the identified events |
| MetricRelations.LandingPagesCountSessions | vault/src/stats.test.js:305-330 | the landing page counts total the unique sessions |
| MetricRelations.ExitPagesCountLongSessions | vault/src/stats.test.js:332-357 | the exit page counts total the sessions that did not bounce |
| MetricRelations.ActivePagesCountVisitors | vault/src/stats.test.js:281-296 | the active page counts total the visitors |
| MetricRelations.EarliestIndexUnique | vault/src/stats.test.js:305-330 | the landing view is the only one with its defining property |
| MetricRelations.LatestIndexUnique | vault/src/stats.test.js:332-357 | the exit or active view is the only one with its defining property |
| MetricRelations.LatestIndexAppend | vault/src/stats.test.js:332-357 | a view of another owner does not change an owner's latest view |
| MetricRelations.SameChoices | vault/src/stats.test.js:305-357 | owners choosing the same pages give the same breakdown, whatever their order |
| MetricRelations.LongChoicesAppend | vault/src/stats.test.js:332-357 | a new single-view session does not change the exit choices |
| MetricRelations.ExitPagesSkipSingleViewSession | vault/src/stats.test.js:332-357 | a session with a single view does not change the exit pages |
| Cohorts.Retained | vault/src/stats.test.js:359-387 | the share of one cohort present in another lies in [0, 1], is 0 for an empty cohort or no overlap, and 1 exactly when the whole cohort is present |
| Cohorts.Retention | vault/src/stats.test.js:359-387 | a triangular matrix, one row per period, shortening by one; entry (i, j) is the share of period i's users present again in period i + j, lies in [0, 1], is 1 exactly when all of a non-empty cohort returns, and is 0 throughout the row of a period without users |
| Cohorts.RetentionDiagonal | vault/src/stats.test.js:359-387 | a row starts at 1, or at 0 for a period without users |
| Cohorts.RetentionSuffix | vault/src/stats.test.js:359-387 | dropping the first period drops the first row and leaves the other rows unchanged |
| Cohorts.RetentionOfAnonymousChunks | vault/src/stats.test.js:371-380 | periods without identified events give a matrix of zeros |
| MetricCases.LossOfMixedEvents | vault/src/stats.test.js:7-17 | one anonymous event in four gives 0.25 |
| MetricCases.LossOfNoEvents | vault/src/stats.test.js:18-23 | no events give 0 |
| MetricCases.LossOfAnonymousEvents | vault/src/stats.test.js:24-32 | only anonymous events give 1 |
| MetricCases.UniqueSessionsOfSessionCase | vault/src/stats.test.js:36-50 | any three distinct session identifiers in that pattern give 3 |
| MetricCases.UniqueSessionsCountsCaseSensitively | vault/src/stats.test.js:36-50 | `session-b` and `session-B` are two sessions: 3 |
| MetricCases.UniqueSessionsOfNoEvents | vault/src/stats.test.js:51-56 | no events give 0 |
| MetricCases.BounceRateOfBounceCase | vault/src/stats.test.js:60-74 | any four sessions of which one repeats give 0.75 |
| MetricCases.BounceRateOfMixedSessions | vault/src/stats.test.js:60-74 | the test's sessions give 0.75 |
| MetricCases.BounceRateOfNoEvents | vault/src/stats.test.js:75-80 | no events give 0 |
| MetricCases.BounceRateOfSingleSessionsCase | vault/src/stats.test.js:81-92 | any four single-event sessions give 1 |
| MetricCases.BounceRateOfSingleSessions | vault/src/stats.test.js:81-92 | the test's sessions give 1 |
| MetricCases.AvgPageloadOfPresentValues | vault/src/stats.test.js:96-109 | pageloads 200, 200, 400, 100, 100 average to 200, ignoring events without one |
| MetricCases.AvgPageloadOfNoEvents | vault/src/stats.test.js:110-115 | no events give `None` |
| MetricCases.AvgPageDepthOfDepthCase | vault/src/stats.test.js:119-132 | any three sessions with 3, 2 and 1 events give 2 |
| MetricCases.AvgPageDepthOfThreeSessions | vault/src/stats.test.js:119-132 | the test's sessions give 2 |
| MetricCases.AvgPageDepthOfNoEvents | vault/src/stats.test.js:133-138 | no events give `None` |
| MetricCases.PageviewsCountIdentifiedEvents | vault/src/stats.test.js:142-154 | four identified events among six give 4 |
| MetricCases.PageviewsOfNoEvents | vault/src/stats.test.js:155-160 | no events give 0 |
| MetricCases.VisitorsOfUserCase | vault/src/stats.test.js:164-176 | any three distinct users with one repeated give 3 |
| MetricCases.VisitorsCountDistinctUsers | vault/src/stats.test.js:164-176 | the test's users give 3 |
| MetricCases.VisitorsOfNoEvents | vault/src/stats.test.js:177-182 | no events give 0 |
| MetricCases.AccountsOfAccountCase | vault/src/stats.test.js:186-198 | any three distinct accounts with one repeated give 3 |
| MetricCases.AccountsCountDistinctAccounts | vault/src/stats.test.js:186-198 | the test's accounts give 3 |
| MetricCases.AccountsOfNoEvents | vault/src/stats.test.js:199-204 | no events give 0 |
| BreakdownCases.ReferrersOfReferrerCase | vault/src/stats.test.js:208-223 | three events from one foreign host, one from another and one from the own host rank the first host with 3 and the second with 1 |
| BreakdownCases.ReferrersGroupForeignHosts | vault/src/stats.test.js:208-223 | the test's events give `www.example.net` 3, `beep.boop` 1 |
| BreakdownCases.ReferrersOfNoEvents | vault/src/stats.test.js:224-229 | no events give an empty list |
| BreakdownCases.CampaignAfterOtherParameter | vault/src/stats.test.js:237 | `utm_campaign` is found after another parameter |
| BreakdownCases.CampaignsOfCampaignCase | vault/src/stats.test.js:233-248 | two events with one campaign and one with another rank them 2 and 1 |
| BreakdownCases.CampaignsGroupByParameter | vault/src/stats.test.js:233-248 | the test's events give `beep` 2, `boop` 1 |
| BreakdownCases.CampaignsOfNoEvents | vault/src/stats.test.js:249-254 | no events give an empty list |
| BreakdownCases.PagesGroupByCleanUrl | vault/src/stats.test.js:258-272 | the test's events give `https://www.example.net/foo` 2, `https://beep.boop/site` 1 |
| BreakdownCases.PagesOfNoEvents | vault/src/stats.test.js:273-278 | no events give an empty list |
| PageCases.LandingOfSessionTrail | vault/src/stats.test.js:306-323 | three sessions, two starting on one page and one on another, rank the pages 2 and 1 |
| PageCases.LandingPagesGroupByFirstView | vault/src/stats.test.js:306-323 | the test's events give `https://www.example.net/foo` 2, `https://beep.boop/site` 1 |
| PageCases.LandingPagesOfNoEvents | vault/src/stats.test.js:324-329 | no events give an empty list |
| PageCases.ExitOfSessionTrail | vault/src/stats.test.js:333-350 | only the two sessions with several views count, each on its latest page |
| PageCases.ExitPagesGroupByLastView | vault/src/stats.test.js:333-350 | the test's events give `https://www.example.net/bar` 1, `https://www.example.net/baz` 1 |
| PageCases.ExitPagesOfNoEvents | vault/src/stats.test.js:351-356 | no events give an empty list |
| PageCases.ActiveOfUserTrail | vault/src/stats.test.js:282-296 | two users each count once, on the page of their latest view |
| PageCases.ActivePagesGroupByLatestView | vault/src/stats.test.js:282-296 | the test's events give `https://beep.boop/site` 1, `https://www.example.net/foo` 1 |
| RetentionCases.RetentionOfRetentionCase | vault/src/stats.test.js:360-370 | any six distinct users in the test's pattern give `[[1, 0.5, 0.25, 0], [1, 2/3, 0], [1, 0], [0]]` |
| RetentionCases.RetentionFollowsCohorts | vault/src/stats.test.js:360-370 | the test's periods give `[[1, 0.5, 0.25, 0], [1, 2/3, 0], [1, 0], [0]]` |
| RetentionCases.RetentionOfEmptyChunks | vault/src/stats.test.js:371-380 | three empty periods give `[[0, 0, 0], [0, 0], [0]]` |
| RetentionCases.RetentionOfNoChunks | vault/src/stats.test.js:381-386 | no periods give an empty matrix |

## Left out

- `vault/src/stats.js` is not part of this model; the behaviour is taken from the assertions of its tests.
- `vault/src/handle-purge.js` and `server/persistence/relational/secrets.go` are not part of this model: neither computes statistics.
- Every function of the vault returns a Promise; the model returns the value the Promise resolves to.
- URL parsing (`window.URL`) is left out: a `Url` holds the parsed scheme, host, path, query string, parsed query parameters and fragment.
- JavaScript numbers are IEEE doubles; the model takes page load times as `real`s and computes ratios and means exactly, so `2 / 3` is exactly two thirds.
- Payload timestamps are strings in the tests (`'0'`, `'247'`); the model takes them as natural numbers and leaves out parsing and string comparison. The tests' orderings agree either way.
- The top-level event `timestamp` (`new Date().toJSON()`) only makes an event anonymous in the tests; it is kept as an opaque field and no metric reads it.
- Keys of equal count are ordered by code point, not by UTF-16 code unit; the two orders agree on the tests' keys.
- The second `activePages` case (vault/src/stats.test.js:297-301) calls `stats.pages`, so it is covered by `BreakdownCases.PagesOfNoEvents` and says nothing about active pages.
- Breakdowns.LandingPages and Breakdowns.ExitPages: an event takes part in a session only if it carries a session identifier, a page URL and a payload timestamp; the tests never give an event without them.
- Breakdowns.ActivePages: an event takes part only if it carries a truthy user identifier, a page URL and a payload timestamp.
- Metrics.AvgPageload: a `pageload` of 0 counts as present; the tests do not say whether a zero pageload is skipped.
- Metrics.AvgPageload: a `pageload` is a number or absent; a present value that is not a number cannot be written in the model.
- Breakdowns.Campaigns: an empty `utm_campaign` value is dropped like a missing one, following the truthiness of the other identifiers; the tests have no empty value.
- EventModel.Url: the parsed query pairs are not derived from the query string; both are given, and no proof relies on their agreement.
- Breakdowns.LandingPages, Breakdowns.ExitPages and Breakdowns.ActivePages: views with equal payload timestamps are ordered by input order (the first one lands, the last one exits or is active); the tests have no equal timestamps within a session or user.
