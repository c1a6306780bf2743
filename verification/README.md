# Civic issue reporting: the pure logic inside the routes and pages

This project models, in Dafny, the small pieces of deterministic logic in a
Next.js civic issue-reporting application. Citizens report issues with a
category, priority, location and photos. Authorities browse and search
them. An analytics endpoint counts issues by status.

The modelled pieces are:

- **Analytics bucketing** (`AnalyticsRoute`). The authority analytics
  endpoint reads each issue row's `status`. It counts every row into
  `totalIssues`. A fixed table maps the storage statuses
  `open | in_progress | resolved | closed` to four named buckets. A row with
  any other status (for example `rejected`, which `lib/mock-data.ts:5`
  allows) counts in the total and in no bucket.
- **The in-memory issue endpoint** (`IssuesApi`). `GET` applies optional
  equality filters on `citizenId`, `status` and `category`; a missing or
  empty parameter imposes nothing. `POST` appends the body as a new issue.
  Its status is forced to `"pending"`. Its id defaults to
  `String(length + 1)`, but an `id` in the body wins, because the body is
  spread after the default.
- **Client-side list filtering and counters.** The citizen issue list
  (`CitizenIssues`) filters by search term, status and category. The
  authority list (`AuthorityIssues`) searches with a trimmed, lower-cased
  term. The citizen dashboard (`CitizenDashboard`) shows counters, the
  first five issues and the resolution rate. The badge colour tables
  (`Badges`) are shared by these pages.
- **Account registration and login** (`Register`, `Login`, `Users`). These
  cover the order of the checks and the status codes each check returns,
  the defaults of a new row, and the removal of `password_hash` from every
  reply.
- **Chart data and the report form** (`AnalyticsPage`, `ReportPage`). Chart
  entries get capitalised labels and colours from a palette by position.
  The photo list grows on upload and shrinks on remove. The submit handler
  builds the request body.

Shared definitions live in `Types` (the `Issue` record of `lib/types.ts`),
`Seqs` (order-preserving `Filter` and the subsequence relation), and `Text`
(ASCII case mapping, JavaScript `trim`, `includes`, and the decimal
`String(n)`).

Every effect body, route handler and event handler is a pure function of
its inputs. The module-level `mockIssues` array and the `users` table are
passed in, and the functions return them updated. Calls to the store,
bcrypt's `hash` and `compare`, clock readings, object URLs, local storage
and the network outcome of `fetch` are all parameters.

Where the routes behave differently from a tidier design, the model follows
the code:

- The issue endpoint returns issues in stored order. It applies no
  newest-first ordering and no translation between status vocabularies.
- The analytics endpoint uses the storage vocabulary. The issue pages use
  `pending | in-progress | resolved | closed`. Each file is modelled with
  its own vocabulary.
- Nothing checks that a body-supplied id is unique. `ClientIdCollides`
  builds a list of two issues that share an id.

## Model

| member | source | states |
|---|---|---|
| Seqs.Filter | app/api/issues/route.ts:12-22 | `Array.prototype.filter`, as used at app/api/issues/route.ts:13,17,21, app/citizen/issues/page.tsx:39,47,51, app/authority/issues/page.tsx:59 and app/citizen/dashboard/page.tsx:68-70: the result is never longer than the input, every element of it comes from the input and passes the predicate, and every input element that passes is kept |
| Seqs.FilterIsSubseq | app/api/issues/route.ts:12-22 | the result of a filter keeps the surviving elements in their original relative order |
| AnalyticsRoute.DbToBucket | app/authority/analytics/route.ts:8-13 | exactly `open`, `in_progress`, `resolved` and `closed` have a bucket, and each has a bucket of its own; every other status has none |
| AnalyticsRoute.Bump | app/authority/analytics/route.ts:43-45 | `stats[bucket] += 1` raises the chosen bucket by one and leaves the total and the other three buckets unchanged |
| AnalyticsRoute.Get | app/authority/analytics/route.ts:6-50 | a store error, and only a store error, gives 500 with "Failed to fetch analytics"; null data gives the all-zero initial counters; otherwise the total is the number of rows and each bucket equals the number of rows whose status is that bucket's key, counted independently of the table |
| AnalyticsRoute.AppendRow | app/authority/analytics/route.ts:41-46 | one more row raises the total by one and exactly its mapped bucket by one; a row with an unmapped status raises no bucket |
| AnalyticsRoute.BucketPartition | app/authority/analytics/route.ts:39-46 | the four bucket counts plus the unmapped rows add up to the number of rows |
| AnalyticsRoute.BucketSum | app/authority/analytics/route.ts:39-46 | the four buckets never exceed the total, and they equal it exactly when every row's status is one of the four keys |
| AnalyticsRoute.OrderIndependent | app/authority/analytics/route.ts:41-46 | any two row lists with the same rows in any order give the same counters |
| IssuesApi.Get | app/api/issues/route.ts:4-25 | the result is never longer than the list, and with no present non-empty parameter it is the whole list |
| IssuesApi.GetIsConjunction | app/api/issues/route.ts:10-22 | the three successive filters return exactly the stored issues passing every supplied filter, in stored order |
| IssuesApi.GetSound | app/api/issues/route.ts:12-22 | every returned issue has each supplied citizenId, status and category; every stored issue that has them all is returned; the result is an order-preserving subsequence of the list |
| IssuesApi.GetOrderIrrelevant | app/api/issues/route.ts:10-22 | applying the filters in the reverse order yields the same list |
| IssuesApi.Post | app/api/issues/route.ts:27-45 | an unparsable body gives 500 and leaves the list unchanged; otherwise the list gains exactly one issue at the end, every earlier issue is unchanged, the status is `pending` whatever the body says, the id is the body's id if present and `String(length+1)` otherwise, and the other fields come from the body |
| IssuesApi.PostThenGet | app/api/issues/route.ts:31-39 | after a `POST`, every `GET` returns what it returned before, plus the new issue at the end if the issue passes that `GET`'s filters |
| IssuesApi.DefaultIdsUnique | app/api/issues/route.ts:32 | a list in which every issue has the default id for its position has pairwise distinct ids |
| IssuesApi.PostKeepsDefaultIds | app/api/issues/route.ts:31-39 | posting a body without an id keeps every id equal to the default for its position |
| IssuesApi.ClientIdCollides | app/api/issues/route.ts:32-33 | a body id `"2"` posted to an empty list, then a body without id, leaves two issues with the same id |
| CitizenIssues.Apply | app/citizen/issues/page.tsx:35-55 | the filtered list is never longer than the fetched one; with an empty term and both selectors on "all" it is the fetched list |
| CitizenIssues.ApplyIsConjunction | app/citizen/issues/page.tsx:36-54 | search, status and category filters together keep exactly the issues passing every active criterion |
| CitizenIssues.ApplySound | app/citizen/issues/page.tsx:38-52 | with a non-empty term every shown issue's lower-cased title or description contains the lower-cased term; with a status or category other than "all" every shown issue has it; every issue meeting all criteria is shown; order is kept |
| CitizenIssues.ApplyIdempotent | app/citizen/issues/page.tsx:36-54 | filtering the filtered list again with the same selections returns it unchanged |
| CitizenIssues.Summary | app/citizen/issues/page.tsx:248-251 | the "Showing k of n" line appears exactly when something is shown; k is then the number of issues shown after filtering and n the fetched count, so 0 < k ≤ n |
| AuthorityIssues.Search | app/authority/issues/page.tsx:52-67 | when the normalised term is non-blank, an issue is kept exactly when the term occurs in its lower-cased title, description or address, and every kept issue matches |
| AuthorityIssues.SearchKey | app/authority/issues/page.tsx:53 | the key is the lower-cased term with its leading and trailing whitespace removed: a slice of it with only whitespace before and after, neither starting nor ending with whitespace (so by `Text.TrimUnique` exactly that slice), no longer than the term, and already lower case |
| AuthorityIssues.SearchKeyBlank | app/authority/issues/page.tsx:53-54 | the lower-cased, trimmed term is blank exactly when the typed term is whitespace only |
| AuthorityIssues.SearchBlank | app/authority/issues/page.tsx:54-57 | an empty or whitespace-only term returns the list unchanged |
| AuthorityIssues.SearchIsSubseq | app/authority/issues/page.tsx:59-64 | whatever the term, the result is an order-preserving subsequence of the list |
| AuthorityIssues.MissingFieldsNeverMatch | app/authority/issues/page.tsx:60-63 | an issue without title, description and address reads them as empty strings and so never matches a non-blank term |
| Badges.StatusColor | app/authority/issues/page.tsx:69-82 | the status colour is the gray default exactly for statuses other than pending, in-progress and resolved, so `closed` looks like an unknown status |
| Badges.StatusColorSeparates | app/citizen/issues/page.tsx:57-70 | two statuses share a badge exactly when they are equal or both fall back to gray |
| Badges.PriorityColor | app/citizen/dashboard/page.tsx:51-64 | the priority colour is gray exactly for values other than the four priorities |
| Badges.PriorityColorSeparates | app/citizen/issues/page.tsx:72-85 | the four priorities get four distinct badges, and all other values share the gray one |
| Badges.AuthorityPriorityColor | app/authority/issues/page.tsx:84-97 | the authority list's priority badge is its bordered gray default exactly for unknown values, and it extends the citizen pages' badge for the same value |
| CitizenDashboard.ComputeStats | app/citizen/dashboard/page.tsx:66-71 | `total` is the number of issues, and `pending`, `inProgress` and `resolved` each equal the number of issues with exactly that status, counted one issue at a time independently of the filters; no counter exceeds the total |
| CitizenDashboard.CountNamedIsCount | app/citizen/dashboard/page.tsx:68-70 | filtering by a status name and taking the length counts exactly the issues that have that status |
| CitizenDashboard.StatusPartition | app/citizen/dashboard/page.tsx:66-71 | the pending, in-progress, resolved and closed counts add up to the number of issues |
| CitizenDashboard.CountersBelowTotal | app/citizen/dashboard/page.tsx:66-71 | the three counters add up to the total minus the closed issues, and they equal the total exactly when no issue is closed |
| CitizenDashboard.RecentIssues | app/citizen/dashboard/page.tsx:159-206 | no issues gives the empty-state prompt; otherwise the first min(5, n) issues in order, with "View All Issues" exactly when some issues are not shown, that is when n > 5 |
| CitizenDashboard.ResolutionRate | app/citizen/dashboard/page.tsx:213-226 | the rate, and its division by the total, exist exactly when there is at least one issue; the rate is then the number of resolved issues divided by the number of issues, times 100, and lies between 0 and 100 |
| Users.Strip | app/api/auth/route.ts:38 | the public row together with the removed hash gives back the stored row exactly |
| Users.StripLosesOnlyHash | app/api/auth/route.ts:38 | removing `password_hash` loses nothing else: the row comes back from its public form and its hash, and two rows have equal public forms exactly when they differ at most in the hash |
| Register.Register | app/api/auth/register/route.ts:7-94 | the checks run in this order: unparsable body gives 500, missing or empty email or password gives 400, lookup error gives 500, existing email gives 409, insert error gives 500; every error leaves the table unchanged; success gives 201 with the stored row minus its hash; that row holds `hash(password)`, role defaulting to "citizen", absent name, phone and department as null, `is_active` true, and the id the insert returned |
| Register.RegisterAddsOne | app/api/auth/register/route.ts:48-86 | registration never alters an existing account, adds exactly one key on success, and changes the table exactly when it replies 201 |
| Login.Login | app/api/auth/route.ts:8-45 | the table never changes; an unparsable body gives 500; missing credentials give 400; success, with 200 and the row minus its hash, happens exactly when the lookup works, the email is known and `compare` accepts; every other failure is the same 401 "Invalid credentials" |
| Login.FailuresIndistinguishable | app/api/auth/route.ts:25-34 | an unknown email and a wrong password for a known email give identical replies |
| Login.RegisterThenLogin | app/api/auth/route.ts:19-40 | if `compare` accepts a password against its own hash, logging in right after a successful registration returns the registered user |
| AnalyticsPage.ChartData | app/authority/analytics/page.tsx:53-65 | an absent record gives no entries; otherwise one entry per record entry in the same order, the value unchanged and the name the key capitalised |
| AnalyticsPage.CategoryData | app/authority/analytics/page.tsx:53-58 | empty while analytics or its category record is absent, else one entry per category |
| AnalyticsPage.PriorityData | app/authority/analytics/page.tsx:60-65 | empty while analytics or its priority record is absent, else one entry per priority |
| AnalyticsPage.ChartNamesFollowKeys | app/authority/analytics/page.tsx:54-56 | each label has its key's length and lower-cases to the same string as the key, and an empty key stays empty |
| AnalyticsPage.CellColor | app/authority/analytics/page.tsx:240 | `COLORS[index % COLORS.length]` is always one of the five palette colours |
| AnalyticsPage.CellColorsCycle | app/authority/analytics/page.tsx:239-241 | colours repeat every five cells, and any five consecutive cells get five different colours |
| Text.Lower | app/citizen/issues/page.tsx:41-42 | `toLowerCase` keeps the length and maps every character on its own |
| Text.Trim | app/authority/issues/page.tsx:53 | `trim` returns a slice of its input with only whitespace before and after it; the result is "" exactly for whitespace-only input, and otherwise starts and ends with a non-whitespace character |
| Text.TrimUnique | app/authority/issues/page.tsx:53 | for any string made of whitespace, then a part that is empty or has non-whitespace ends, then whitespace, `trim` returns exactly that part |
| Text.TrimIdempotent | app/authority/issues/page.tsx:53 | trimming an already trimmed string changes nothing |
| Text.TrimKeepsLower | app/authority/issues/page.tsx:53 | trimming a lower-case string leaves it lower case |
| Text.Includes | app/authority/issues/page.tsx:60-63 | `includes` holds exactly when the needle occurs in the string at some position |
| Text.Capitalize | app/authority/analytics/page.tsx:55 | only the first character is upper-cased; the length and the rest are kept, and "" stays "" |
| Text.CapitalizeKeepsLower | app/authority/analytics/page.tsx:62 | a capitalised label lower-cases to the same string as its key |
| Text.NatToString | app/api/issues/route.ts:32 | `String(n)` is a non-empty string of decimal digits without a leading zero |
| Text.ParseNatToString | app/api/issues/route.ts:32 | reading the decimal digits of `String(n)` gives back `n` |
| Text.NatToStringInjective | app/api/issues/route.ts:32 | distinct list lengths give distinct default ids |
| ReportPage.Upload | app/citizen/report/page.tsx:66-73 | no file list leaves the photos unchanged; otherwise the new URLs follow the old photos, which keep their order |
| ReportPage.KeepOthersSplices | app/citizen/report/page.tsx:210 | the index filter over a list starting at any position removes exactly the element at `index`, or nothing when `index` is outside the list |
| ReportPage.RemoveImage | app/citizen/report/page.tsx:210 | removing photo `i` gives the photos before it followed by those after it, one fewer; an index outside the list changes nothing |
| ReportPage.RemoveUndoesUpload | app/citizen/report/page.tsx:210 | removing the photo that was just uploaded restores the previous list |
| ReportPage.Submit | app/citizen/report/page.tsx:29-64 | a body is sent unless reading the stored user fails; the body nests the address under `location` and takes `citizenId` from the stored user; success is set exactly for an ok response, the error message exactly otherwise, and loading always ends |

## Left out

- `fetch`, `NextResponse`, `useRouter` and the redirect timer, React state and effects, and rendering. Each effect or handler body is a function of its inputs, and its outputs are returned.
- The database client and the query helpers of `lib/mock-data.ts`. These wrap a library that is not part of this model. Issue rows, the `users` table and the outcome of each store call are parameters. The initial contents of `mockIssues` and `mockAnalytics` are not part of this model.
- `app/api/analytics/route.ts`, which returns a constant object.
- bcrypt. `hash` and `compare` are function parameters with no stated relation. `compare(p, hash(p))` appears only as a hypothesis of `Login.RegisterThenLogin`.
- Register.Register: states that the stored hash is `hash(password)`; it cannot state that the hash differs from the plaintext, because bcrypt's output is not modelled.
- Floating-point percentages (`Math.round`, `toFixed`) and `Date` / `toLocaleDateString`. The two `new Date()` readings of `POST` are parameters. `CitizenDashboard.ResolutionRate` uses exact real division.
- Unicode case mapping. `toLowerCase` and `toUpperCase` map ASCII letters only. Characters whose case mapping changes length (such as `ß`) are not modelled.
- JSON transport. The issue `POST` body is typed with the record's fields plus an optional `id` and `status`; extra keys a client might send are not carried. The report form sends category and priority as the selector's strings; it is not connected to the typed body.
- Object key order. Analytics records are given as entry lists in `Object.entries` order; JavaScript's placing of integer-like keys first is not modelled.
- Keys inherited from `Object.prototype`. The `dbToBucket` lookup is treated as having exactly its four own keys.
- A `null` status in an analytics row. Rows carry a string status; a `null` one would, like any unmapped status, reach no bucket.
- Duplicate emails in the `users` table. The table is a map keyed by email, so the multiple-row errors of `maybeSingle()` and `single()` cannot arise. Any other lookup error is a boolean parameter.
- Exceptions other than an unparsable request body (bcrypt throwing, for one). These would give the routes' generic 500 reply and are not modelled.
- The analytics page's re-fetch on time-range change, and its hard-coded monthly and response-time chart arrays.
- Navigation, the home page, login and registration UI pages, the authority dashboard, the issue detail pages and the `[id]` routes. These are presentation and plumbing outside the modelled core.
- Concurrent requests sharing `mockIssues`. Requests are modelled one at a time.
