# Banking dashboard: transaction paging and backend scopes

This project models two pieces of a consumer banking dashboard built on Next.js
and an Appwrite backend, and proves properties of them in Dafny.

- **Recent transactions paging** (`RecentTransactions` module,
  `recent_transactions.dfy`). The recent-transactions panel shows 10 rows per
  page. It computes `totalPages = Math.ceil(length / 10)` and cuts page `page`
  out of the list with `transactions.slice((page - 1) * 10, page * 10)`. It
  draws the pager only when `totalPages > 1`. Every account tab gets the same
  page. The props default to `transactions = []` and `page = 1`. The model
  keeps the input order; nothing sorts the transactions. `page` is any
  integer, and `slice`'s rule for negative indices is written out, so pages 0
  and below are modelled as the code behaves.
- **Session and admin scopes** (`AppwriteServer` module, `appwrite.dfy`).
  `createSessionClient` builds an SDK client, points it at the configured
  endpoint and project, and reads the `appwrite-session` cookie. It throws
  `"No session"` when the cookie is missing or its value is empty. Otherwise
  it binds the client to the cookie's value and returns getters for
  `account`, `database` and `user`. `createAdminClient` never looks at the
  cookie. It binds the client to the secret key and returns getters for
  `account` and `database` only. The SDK client is a `Client` class whose
  setter methods update its `endpoint`, `project`, `session` and `key`
  fields. The cookie check is the pure function `SessionGuard`.

`wrappers.dfy` holds the `Option` and `Result` datatypes both modules use.

## Model

| member | source | states |
|---|---|---|
| `RecentTransactions.SliceIndex` | components/RecentTransactions.tsx:19-22 | Where `slice` places an index: the index itself inside the array, the length past the end, and the length plus the index for a negative index, clamped at 0 |
| `RecentTransactions.Slice` | components/RecentTransactions.tsx:19-22 | `slice(start, end)` has `max(to - from, 0)` elements, and element `k` is input element `from + k` |
| `RecentTransactions.TotalPages` | components/RecentTransactions.tsx:15-16 | The page count is the ceiling of `count / 10`: it holds every row, and one page fewer would not |
| `RecentTransactions.Paginate` | components/RecentTransactions.tsx:17-22 | A page never holds more than 10 transactions, nor more than the list |
| `RecentTransactions.PageWindow` | components/RecentTransactions.tsx:17-22 | For `page >= 1`, the page is exactly `transactions[(page-1)*10 .. min(page*10, len)]`, and empty when it starts at or past the end |
| `RecentTransactions.PageEmptyIffPastLast` | components/RecentTransactions.tsx:16-22 | For `page >= 1`, the page is empty if and only if `page > totalPages`; pages up to the last hold `min(10, rest)` rows |
| `RecentTransactions.PageIsContiguous` | components/RecentTransactions.tsx:19-22 | For every integer page, the page is a contiguous run of the input, in input order |
| `RecentTransactions.PaginateIgnoresValues` | components/RecentTransactions.tsx:19-22 | Paging commutes with transforming the elements: it depends on positions only, so it does not sort |
| `RecentTransactions.NonPositivePage` | components/RecentTransactions.tsx:17-22 | Page 0 is empty; a negative page is a run counted back from the end of the list, as `slice` does with negative indices |
| `RecentTransactions.PagesUpToIsPrefix` | components/RecentTransactions.tsx:17-22 | Pages 1 to `k`, concatenated, are the first `min(10k, len)` transactions |
| `RecentTransactions.PagesReassemble` | components/RecentTransactions.tsx:16-22 | Concatenating pages 1 to `totalPages` gives back the input exactly: nothing dropped, repeated or reordered |
| `RecentTransactions.ShowPager` | components/RecentTransactions.tsx:60 | The pager guard `totalPages > 1`: for any list whose page count this is, the pager is drawn if and only if the list has more than 10 rows |
| `RecentTransactions.ShowPagerIff` | components/RecentTransactions.tsx:60 | The pager is drawn if and only if there are more than 10 transactions |
| `RecentTransactions.TwentyFiveTransactions` | components/RecentTransactions.tsx:15-22 | 25 transactions give 3 pages; page 3 is the last 5, page 4 is empty, and page -1 is rows 5 to 14 |
| `RecentTransactions.TabPanels` | components/RecentTransactions.tsx:47-64 | One panel per account, in order; every panel shows the same current page and gets the pager exactly when there are more than 10 transactions |
| `RecentTransactions.TransactionsOf` | components/RecentTransactions.tsx:11 | An undefined `transactions` prop leaves 0 pages and every page empty; a given list is used unchanged |
| `RecentTransactions.PageOf` | components/RecentTransactions.tsx:13 | An undefined `page` prop shows the first 10 transactions (or all of them, if fewer); a given page is used unchanged |
| `RecentTransactions.DefaultsShowEmptyPage` | components/RecentTransactions.tsx:9-16 | With `transactions` and `page` left undefined there are 0 pages, and every tab shows an empty table and no pager |
| `AppwriteServer.Client.constructor` | lib/server/appwrite.ts:8 | A new client has no endpoint, project, session or key |
| `AppwriteServer.Client.SetEndpoint` | lib/server/appwrite.ts:9 | Sets the endpoint and changes nothing else |
| `AppwriteServer.Client.SetProject` | lib/server/appwrite.ts:10 | Sets the project and changes nothing else |
| `AppwriteServer.Client.SetSession` | lib/server/appwrite.ts:17 | Sets the session and changes nothing else |
| `AppwriteServer.Client.SetKey` | lib/server/appwrite.ts:38 | Sets the key and changes nothing else |
| `AppwriteServer.SessionGuard` | lib/server/appwrite.ts:12-15 | Fails with "No session" if and only if the cookie is missing or empty; otherwise yields the cookie's value unchanged |
| `AppwriteServer.Scope.Get` | lib/server/appwrite.ts:19-47 | A getter of either scope (lines 19-29 for the session scope, 40-47 for the admin scope) yields a handle on the scope's own client exactly for the services the scope exposes |
| `AppwriteServer.CreateSessionClient` | lib/server/appwrite.ts:7-30 | Fails with "No session" exactly when the cookie is missing or empty; on success the new client has the configured endpoint and project, the cookie's value as session and no key, and the scope exposes account, database and user |
| `AppwriteServer.CreateAdminClient` | lib/server/appwrite.ts:34-48 | Takes no cookie and cannot fail; the new client has the configured endpoint and project, the secret key and no session, and the scope exposes account and database only |
| `AppwriteServer.AdminScopeIsNarrower` | lib/server/appwrite.ts:19-47 | The admin scope yields account and database handles but no users handle; everything it yields the session scope yields too |
| `AppwriteServer.BuildBothScopes` | lib/server/appwrite.ts:7-48 | Built from one configuration, the two scopes have distinct clients with the same endpoint and project; only the session client has the cookie, only the admin client has the key |

## Left out

- Rendering: the header, the "View all" link, the tab list, `BankTabItem`, `BankInfo`, `TransactionsTable` and `Pagination`. `TabPanels` keeps only what each tab is given.
- `Math.ceil` on a floating-point quotient is modelled as integer ceiling division. Page numbers that are not integers, and integers beyond 2^53, are not modelled.
- `TabPanels` leaves out `appwriteItemId`. The panel uses it in the "View all" link (components/RecentTransactions.tsx:29), as the default tab (line 35), and as a prop of every `BankTabItem` (line 42) and every `BankInfo` (line 55). All four uses are rendering.
- The `Account`, `Databases` and `Users` services are modelled as handles that record their service and client. What they do is not modelled.
- Reading the cookie store and `process.env` is I/O. The cookie's value and the three environment values are parameters. An environment variable that is undefined at run time is not modelled: the source's `!` assertions assume it is set.
- `async`/`await` is not modelled. Both constructors are sequential, and the only awaited step is the cookie read.
- The `Client` setters return the client for chaining. Here they are methods that update the client in place and return nothing.
- The app's transaction sorting, account linking and token exchange are not in these two files and are not modelled.
