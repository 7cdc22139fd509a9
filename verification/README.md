# URL shortener: link registry, redirect path and analytics arithmetic

This project models the core of a URL shortener. Its Express backend keeps two
document collections: shortened links, keyed by a unique `shortId`, and click
events. The backend handles these requests:

- shortening a link, with a custom alias or a generated id and a three-day
  default expiry;
- deleting a link, with an ownership check and a cascade that removes its
  clicks;
- listing a user's links;
- reporting a link's click information;
- resolving `GET /:shortId`: a logging middleware records a click, then the
  handler redirects, answers "not found" or "expired", and increments the
  link's counter.

The React front end turns the click list into pie-chart counts and hourly,
daily and monthly histograms. It pages the click table and the dashboard's
link table, and filters the dashboard by a case-insensitive search. It keeps
four Redux slices: analytics, shortened URLs, authentication and signup.

How the model is organised:

- **Registry** states each backend handler as a function over a `Db` value,
  which holds the two collections. The class `Registry.Store` holds the
  collections as fields and updates them in place. Each of its methods is
  proved to agree with its function and to keep the store's invariant: every
  link is filed under its own `shortId` and passed schema validation.
- **Outside inputs are parameters.** The id generator's output, the
  user-agent parser's result, the clock (`now`, in milliseconds) and whether
  the database accepts a click's save are all passed in.
- **Front-end counting loops** are methods over arrays and maps, proved
  against occurrence counts.
- **Page state and the store slices** are classes. Their methods state the
  whole new state.

Where the code and its documented intent differ, the model follows the code:

- The device type falls back to `"desktop"`, so a click never fails
  validation for want of one.
- Clicks are logged before the lookup, so unknown and expired ids still
  gain a click row (`Registry.ClickLoggedBeforeLookup`).
- The front end sends the expiry as `expirationDate`, but the backend reads
  `expiresAt`. As wired, every link gets the default expiry.
- The backend never stores or returns a `customAlias` field, although the
  dashboard filters on one when it is present.

## Model

| member | source | states |
|---|---|---|
| Records.CreateUrl | backend/models/Url.js:4-29 | A link is created iff the target is a non-empty string and the id is non-empty (the `required` validators); it carries the given fields, zero clicks and creation time now |
| ClickLog.FirstPiece | backend/middleware/logClick.js:11 | `split(',')[0]`: a prefix of the header containing no comma, ending at the first comma or at the end |
| ClickLog.ClientIp | backend/middleware/logClick.js:11-14 | The address is the forwarded header's first piece when truthy, else the connection's remote address when truthy, else the socket's |
| ClickLog.ForwardedIp | backend/middleware/logClick.js:11 | `x-forwarded-for?.split(',')[0]`: present exactly when the header is, and then the longest comma-free prefix of it: it ends at the first comma or at the end of the header |
| ClickLog.MakeClick | backend/middleware/logClick.js:6-24 | The click carries the path's id and now; browser, OS and device type fall back to "chrome", "windows" and "desktop", so none is empty |
| ClickLog.ClickValidIffShortId | backend/models/Click.js:3-10 | A logged click passes the schema's required fields exactly when the path id is non-empty |
| Registry.ClicksOf | backend/controllers/clickController.js:16 | `Click.find({ shortId })`: exactly the clicks with that id |
| Registry.ClicksNotOf | backend/models/Url.js:34 | What `deleteMany({ shortId })` leaves: exactly the clicks with another id |
| Registry.ClicksInOrder | backend/models/Url.js:34 | Both the clicks of an id and the clicks that survive its deletion keep the collection's order |
| Registry.ClicksSplit | backend/models/Url.js:31-37 | The clicks of one id and the rest partition the collection, as multisets and by length |
| Registry.ChooseId | backend/controllers/urlController.js:14 | The custom alias when truthy, else the generated id |
| Registry.StoredExpiry | backend/controllers/urlController.js:26 | The request's expiry when present and non-zero, else now plus three days |
| Registry.Shorten | backend/controllers/urlController.js:7-39 | 400 exactly when the chosen id is taken; 500 exactly when it is free but the target or the id fails validation; nothing changes unless 201, and 201 adds exactly the new id and no click (details in the Shorten lemmas below) |
| Registry.ShortenRejectsTakenId | backend/controllers/urlController.js:17-20 | An id already present answers 400 "Alias already taken" and leaves the store unchanged, whatever the target |
| Registry.ShortenIdChoice | backend/controllers/urlController.js:14 | The id is the custom alias when non-empty, otherwise the generated id |
| Registry.ShortenAddsOneLink | backend/controllers/urlController.js:22-29 | A free id and a valid target give 201 and exactly one new link with the request's fields; other links and all clicks unchanged; the store invariant kept |
| Registry.ShortenDefaultExpiry | backend/controllers/urlController.js:26 | The stored expiry is the request's when truthy, else now plus 259200000 ms |
| Registry.ShortenResponse | backend/controllers/urlController.js:29-34 | The answer's short URL is the front-end address, "/" and the id; its expiry echoes the request value, not the stored default |
| Registry.ShortenValidationError | backend/controllers/urlController.js:35-38 | A missing or empty target fails validation: 500, store unchanged |
| Registry.FindOneAndDelete | backend/models/Url.js:31-37 | Removes the id's link; when one matched, exactly the clicks carrying its `shortId` are gone; with no match nothing changes |
| Registry.Delete | backend/controllers/urlController.js:42-65 | 404 exactly for an unknown id, 500 exactly for an ownerless link, success exactly for the owner, 403 otherwise; only success changes the store, and then as `FindOneAndDelete` |
| Registry.FindOneAndDeleteNoMatch | backend/models/Url.js:33-36 | When no link matches, the hook deletes no clicks and nothing changes |
| Registry.DeleteUnknown | backend/controllers/urlController.js:47-51 | Deleting an unknown id answers 404 and changes nothing |
| Registry.DeleteRefused | backend/controllers/urlController.js:54-56 | A requester who is not the owner gets 403 (500 when the link has no owner, as `toString` throws); link and clicks stay |
| Registry.DeleteCascades | backend/controllers/urlController.js:59-61 | The owner's delete removes the link and exactly its clicks, keeps every other link and the other clicks as a subsequence of the old ones, keeps the invariant; click info then answers "URL not found" |
| Registry.NothingLeftOf | backend/models/Url.js:34 | After the cascade no click of the deleted id remains |
| Registry.GetUserUrls | backend/controllers/urlController.js:71-77 | 404 iff the user owns no link; otherwise exactly the user's links, unchanged |
| Registry.ClickInfo | backend/controllers/clickController.js:9-36 | 404 "URL not found" iff the id is unknown; 404 "no click information" iff known with no click; otherwise the link's fields and exactly its clicks, non-empty |
| Registry.Redirect | backend/controllers/clickController.js:44-66 | 404 exactly for an unknown id, 410 exactly for an expiry strictly before now, otherwise a redirect to the target with the counter one higher; only the redirect changes anything, and never the clicks or the set of links |
| Registry.RedirectUnknown | backend/controllers/clickController.js:49 | An unknown id answers 404 and no counter moves |
| Registry.RedirectExpired | backend/controllers/clickController.js:52-54 | An expiry strictly before now answers 410 and nothing changes |
| Registry.RedirectCounts | backend/controllers/clickController.js:57-61 | Otherwise the counter grows by exactly one, no other field or link changes, clicks unchanged, and the answer redirects to the target |
| Registry.RedirectAtExpiryInstant | backend/controllers/clickController.js:52 | A link expiring exactly now still redirects (the comparison is strict) |
| Registry.LogClick | backend/middleware/logClick.js:4-32 | The links never change; the old clicks stay a prefix and at most one click is added, the one the middleware builds |
| Registry.LogClickAppendsOne | backend/middleware/logClick.js:17-31 | A successful save appends exactly one click with the path's id and now, keeping the earlier clicks; a failed save changes nothing; links never change |
| Registry.HandleRedirect | backend/routes/urlRoutes.js:10 | The answer is the redirect handler's on the old store; the links are those the handler leaves (the counter one higher on a redirect) and the clicks are those logging leaves, so logging and the handler commute |
| Registry.ClickLoggedBeforeLookup | backend/routes/urlRoutes.js:10 | The middleware runs first: a click is recorded even for an unknown or expired id, and the redirect answer is what it would be without logging |
| Registry.EarlierVisitCountsForLaterAlias | backend/routes/urlRoutes.js:10 | A visit to a not-yet-created alias leaves a click that a link created later under that alias reports as its own |
| Registry.SameAliasTwice | backend/controllers/urlController.js:14-20 | Shortening the same alias twice: the second answers 400 and the store keeps the first link |
| Registry.Store.constructor | backend/models/Url.js:4-29 | The store starts empty and consistent |
| Registry.Store.ShortenUrl | backend/controllers/urlController.js:7-39 | Updates the links as `Shorten` says and answers as it does; keeps the invariant |
| Registry.Store.FindOneAndDeleteUrl | backend/models/Url.js:31-37 | Removes the matching link's clicks, then the link; keeps the invariant |
| Registry.Store.DeleteUrl | backend/controllers/urlController.js:42-65 | Updates the store as `Delete` says: existence, then ownership, then the cascade |
| Registry.Store.RedirectToOriginal | backend/controllers/clickController.js:44-66 | Updates the counter in place as `Redirect` says |
| Registry.Store.LogClickMiddleware | backend/middleware/logClick.js:4-32 | Appends the click as `LogClick` says; a failed save is swallowed |
| Registry.Store.HandleRedirectRequest | backend/routes/urlRoutes.js:10 | The middleware, then the handler, as `HandleRedirect` says |
| Tallies.Occurrences | frontend/src/utils/analyticsHelpers.ts:15 | A count never above the length, positive exactly when the value occurs |
| Tallies.SumIncrement | frontend/src/pages/AnalyticsPage.tsx:61 | Adding one to a slot adds one to the total |
| Tallies.AllInRange | frontend/src/pages/AnalyticsPage.tsx:57-83 | When every key is a valid slot, every key is counted |
| PieChart.KeyValue | frontend/src/utils/analyticsHelpers.ts:14 | A missing or empty value is grouped under "Unknown"; the grouping value is never empty |
| PieChart.GetPieChartData | frontend/src/utils/analyticsHelpers.ts:9-23 | Distinct labels, one per grouping value, equal in number to the counts; each count is that value's number of clicks and at least 1; every click is counted once, so the counts sum to the number of clicks; no clicks, no labels |
| PieChart.TallyExisting | frontend/src/utils/analyticsHelpers.ts:15 | Counting a value already labelled adds one to its count and to the total |
| PieChart.TallyNew | frontend/src/utils/analyticsHelpers.ts:15 | A value seen for the first time gets a new label at the end with count 1 |
| AnalyticsPage.Tally | frontend/src/pages/AnalyticsPage.tsx:57-83 | Slot `k` ends holding the number of keys equal to `k`; the slots sum to the number of keys in range |
| AnalyticsPage.HistogramStep | frontend/src/pages/AnalyticsPage.tsx:59-61 | Counting one more key keeps every slot and the total exact |
| AnalyticsPage.ClicksPerHour | frontend/src/pages/AnalyticsPage.tsx:57-64 | 24 buckets, bucket `h` holding the clicks of hour `h`; they sum to the number of clicks |
| AnalyticsPage.ClicksPerDay | frontend/src/pages/AnalyticsPage.tsx:66-74 | One bucket per day of the month, day `d` in bucket `d - 1`; they sum to the number of clicks when no day lies past the month's end |
| AnalyticsPage.ClicksPerMonth | frontend/src/pages/AnalyticsPage.tsx:76-83 | 12 buckets, January first; they sum to the number of clicks |
| AnalyticsPage.NatToString | frontend/src/pages/AnalyticsPage.tsx:91-97 | `n.toString()` for the hour and day labels: never empty, and decimal by `NatToStringDecimal` |
| AnalyticsPage.NatToStringDecimal | frontend/src/pages/AnalyticsPage.tsx:91-97 | The labels' `toString` writes the number in decimal digits, with no leading zero |
| AnalyticsPage.TimeSeries | frontend/src/pages/AnalyticsPage.tsx:85-108 | No data or the "week" timeframe gives empty series; hour labels are "h:00" for h from 0 to 23, day labels the days 1 to the month's length, month labels Jan to Dec; each count is that bucket's clicks |
| AnalyticsPage.ClickPages | frontend/src/pages/AnalyticsPage.tsx:120 | 1 before data arrives; otherwise the least page count that holds all clicks two to a page |
| AnalyticsPage.CurrentClicks | frontend/src/pages/AnalyticsPage.tsx:115-117 | The clicks at indices `[(page - 1) * 2, page * 2)` that exist: exactly two, or the rest of the list when fewer remain, or none past the end or without data |
| AnalyticsPage.AnalyticsView.constructor | frontend/src/pages/AnalyticsPage.tsx:33-36 | The page starts on timeframe "day" and page 1 |
| AnalyticsPage.AnalyticsView.HandleNext | frontend/src/pages/AnalyticsPage.tsx:122-124 | Moves forward one page only while not on the last |
| AnalyticsPage.AnalyticsView.HandlePrevious | frontend/src/pages/AnalyticsPage.tsx:126-128 | Moves back one page only while not on the first |
| AnalyticsPage.AnalyticsView.SetTimeframe | frontend/src/pages/AnalyticsPage.tsx:259 | The chosen timeframe replaces the old one |
| Paging.TotalPages | frontend/src/pages/DashboardPage.tsx:59 | `Math.ceil(n / perPage)`: the least page count holding all items; zero exactly for no items |
| Paging.PageSlice | frontend/src/pages/DashboardPage.tsx:56-58 | At most `perPage` items, those from `(page - 1) * perPage` on, clamped to the end |
| Paging.PageHolds | frontend/src/pages/DashboardPage.tsx:56-59 | Every item lies on page `i / perPage + 1`, within the page count, at position `i % perPage` |
| Paging.PagesInRange | frontend/src/pages/DashboardPage.tsx:56-59 | A page is non-empty exactly when it is within the page count |
| Paging.StepsStayInRange | frontend/src/pages/DashboardPage.tsx:61-67 | From a page in `[1, max(1, totalPages)]`, next and previous stay in it, moving by one exactly when allowed |
| DashboardPage.ToLower | frontend/src/pages/DashboardPage.tsx:50-52 | Same length; no upper-case letter left; upper-case letters shifted to lower case, other characters kept |
| DashboardPage.ToLowerIdempotent | frontend/src/pages/DashboardPage.tsx:50-52 | Lower-casing twice is lower-casing once |
| DashboardPage.IncludesIff | frontend/src/pages/DashboardPage.tsx:50-52 | `includes` holds exactly when the needle occurs at some index |
| DashboardPage.FilteredUrls | frontend/src/pages/DashboardPage.tsx:49-53 | A link is kept iff the lower-cased term is in its lower-cased id, its alias when truthy, or its target; a kept link keeps every copy it had, a dropped one none |
| DashboardPage.FilterIsSubsequence | frontend/src/pages/DashboardPage.tsx:49-53 | The kept links are in their original order |
| DashboardPage.EmptySearchKeepsAll | frontend/src/pages/DashboardPage.tsx:49-53 | The empty search term keeps every link |
| DashboardPage.Dashboard.constructor | frontend/src/pages/DashboardPage.tsx:16-20 | No links, empty term, not loading, no error, page 1 |
| DashboardPage.Dashboard.PageCount | frontend/src/pages/DashboardPage.tsx:59 | The least page count holding the filtered links five to a page |
| DashboardPage.Dashboard.CurrentUrls | frontend/src/pages/DashboardPage.tsx:56-58 | The filtered links at indices `[(page - 1) * 5, page * 5)`: exactly five, or the rest when fewer remain, or none past the end; non-empty exactly when the page is within the page count |
| DashboardPage.Dashboard.FetchUrls | frontend/src/pages/DashboardPage.tsx:26-46 | Without a truthy token nothing changes; a response replaces the links; a failure sets "Error fetching URLs"; loading ends false |
| DashboardPage.Dashboard.OnSearchChange | frontend/src/pages/DashboardPage.tsx:99-102 | The new term replaces the old and the page goes back to 1 |
| DashboardPage.Dashboard.HandleNext | frontend/src/pages/DashboardPage.tsx:61-63 | Moves forward one page only while not on the last page of the filtered list |
| DashboardPage.Dashboard.HandlePrevious | frontend/src/pages/DashboardPage.tsx:65-67 | Moves back one page only while not on the first |
| AnalyticsSlice.Initial | frontend/src/store/slices/analyticsSlice.ts:32-36 | No data, not loading, no error |
| AnalyticsSlice.RejectionPayload | frontend/src/store/slices/analyticsSlice.ts:49 | The server's message when truthy, else "Failed to fetch analytics data" |
| AnalyticsSlice.AnalyticsStore.ClearAnalytics | frontend/src/store/slices/analyticsSlice.ts:58-62 | Back to the initial state |
| AnalyticsSlice.AnalyticsStore.Pending | frontend/src/store/slices/analyticsSlice.ts:66-69 | Loading, error cleared, data kept |
| AnalyticsSlice.AnalyticsStore.Fulfilled | frontend/src/store/slices/analyticsSlice.ts:70-73 | Not loading, the payload becomes the data, error kept |
| AnalyticsSlice.AnalyticsStore.Rejected | frontend/src/store/slices/analyticsSlice.ts:74-77 | Not loading, the payload becomes the error, stale data kept |
| UrlSlice.Initial | frontend/src/store/slices/urlSlice.ts:10-14 | No links, not loading, no error |
| UrlSlice.RejectionError | frontend/src/store/slices/urlSlice.ts:34 | The error's message when truthy, else "Error shortening URL" |
| UrlSlice.UrlStore.Pending | frontend/src/store/slices/urlSlice.ts:24-27 | Loading, error cleared, list kept |
| UrlSlice.UrlStore.Fulfilled | frontend/src/store/slices/urlSlice.ts:28-31 | Not loading; the payload appended, the list one longer with the old list as its prefix |
| UrlSlice.UrlStore.Rejected | frontend/src/store/slices/urlSlice.ts:32-35 | Not loading, the error set, list kept |
| AuthSlice.StoredToken | frontend/src/store/slices/authSlice.ts:13 | A token exactly when local storage holds a non-empty one, and then that one |
| AuthSlice.Initial | frontend/src/store/slices/authSlice.ts:12-18 | The stored token, no user, not loading, no error |
| AuthSlice.AuthStore.SetToken | frontend/src/store/slices/authSlice.ts:24-26 | Only the token changes |
| AuthSlice.AuthStore.LoginPending | frontend/src/store/slices/authSlice.ts:30-33 | Loading, error cleared; token and user kept |
| AuthSlice.AuthStore.LoginFulfilled | frontend/src/store/slices/authSlice.ts:34-38 | Not loading; token and user from the response; error kept |
| AuthSlice.AuthStore.LoginRejected | frontend/src/store/slices/authSlice.ts:39-42 | Not loading; the payload becomes the error; token and user kept |
| SignupSlice.Initial | frontend/src/store/slices/signupSlice.ts:16-26 | Empty strings, false flags, no token |
| SignupSlice.SignupStore.SetName | frontend/src/store/slices/signupSlice.ts:32-34 | Only the name changes |
| SignupSlice.SignupStore.SetUserName | frontend/src/store/slices/signupSlice.ts:35-37 | Only the user name changes |
| SignupSlice.SignupStore.SetEmail | frontend/src/store/slices/signupSlice.ts:38-40 | Only the email changes |
| SignupSlice.SignupStore.SetPassword | frontend/src/store/slices/signupSlice.ts:41-43 | Only the password changes |
| SignupSlice.SignupStore.SetConfirmPassword | frontend/src/store/slices/signupSlice.ts:44-46 | Only the confirmation changes |
| SignupSlice.SignupStore.SetError | frontend/src/store/slices/signupSlice.ts:47-49 | Only the error changes, to the payload |
| SignupSlice.SignupStore.ClearError | frontend/src/store/slices/signupSlice.ts:50-52 | Only the error changes, to the empty string |
| SignupSlice.SignupStore.SetLoading | frontend/src/store/slices/signupSlice.ts:53-55 | Only the loading flag changes |
| SignupSlice.SignupStore.SetSuccess | frontend/src/store/slices/signupSlice.ts:56-58 | Only the success flag changes |
| SignupSlice.SignupStore.SetToken | frontend/src/store/slices/signupSlice.ts:59-61 | Only the token changes; it may be set to none |

## Left out

- The id generator (`shortid`), the user-agent parser and the clock are not modelled. Their outputs are parameters, and nothing is claimed about the generator's uniqueness.
- Database failures are modelled only for the click save in the logging middleware (the `storeUp` parameter), which the source swallows. The other failure answers, all 500 "Server error" or the error's message, are not represented: `Url.create` failing for another reason than validation (backend/controllers/urlController.js:35-38), `findOneAndDelete` failing (backend/controllers/urlController.js:62-64), `Url.find` failing (backend/controllers/urlController.js:78-81), `Click.find` failing (backend/controllers/clickController.js:37-40) and `urlDoc.save()` failing (backend/controllers/clickController.js:62-65).
- Concurrency is not modelled. Every handler is one atomic step, so the race between two creates of the same alias, which the unique index settles, is not represented.
- Database I/O, connection setup, CORS and environment loading are not modelled. The collections are in-memory values, and the front-end address is a constant of the store.
- Date handling is simplified. Times are integer milliseconds, so invalid `Date` values from a malformed `expiresAt` and invalid owner-id casts are not represented.
- Time zones are not modelled. Each front-end click carries its local hour, day and month as given fields, and the month's length is a parameter.
- Registry.Shorten: uses one `now` for the link's creation time and for the default expiry (now plus three days), which in the source are two clock readings (the handler's own and the schema default's), so the model's exact `expiresAt == createdAt + 259200000` may be off by the time between them.
- Registry.LogClick: uses the same `now` for the click's timestamp and the handler's expiry check, which in the source are two clock readings.
- Registry.GetUserUrls: answers a map keyed by id, so the order in which the database lists the links is not stated.
- AnalyticsPage.ClicksPerDay: counts a click whose day lies past the current month's end in no bucket. In the source that write grows the array with a `NaN` entry.
- PieChart.GetPieChartData: orders labels by first appearance. In JavaScript, `Object.keys` lists integer-like keys first in ascending order, and keys such as `__proto__` behave specially; neither is modelled.
- DashboardPage.ToLower: lower-cases only the letters A to Z; other Unicode case mappings are not modelled.
- The shorten thunk always throws "Failed to shorten URL", so the URL slice's rejection always stores that text. The thunk is not part of this model; `UrlSlice.RejectionError` covers any message.
- Authentication is not part of this model: JWT signing, password checks and the auth middleware. The authenticated user id is an input.
- The network thunks, the axios client and local storage are not part of this model. The slices take their payloads, and the auth slice takes the stored token, as inputs.
- Pure UI is not part of this model: the other pages, the components, the spinner store, chart configuration, QR-code generation, clipboard access, navigation and the analytics page's delete button.
