# Taskforce wallet: a verified model of its session and ledger logic

Taskforce wallet is a personal-finance web front end. It keeps a signed-in
user's session and derives figures from the transactions, accounts,
categories, budgets and notifications it fetches from a backend. This project
models the logic behind those figures, and the session store, in Dafny, and
proves what each view computes.

- **Session slice** (`AuthSlice`). A class whose fields are the in-memory
  `userInfo` record and the browser-storage slot `userInfo`. It has the
  startup restore (the constructor) and the reducers `getCredentials`,
  `logOut` and `updateUserInfo`. Every reducer keeps memory and storage in
  agreement (`Valid`).
- **Grouping** (`Grouping`). The "reduce into an object keyed by a string"
  idiom that the dashboard (by month) and the reports (by day) share. Keys
  that are neither integer-like nor the names of inherited object members
  enumerate in insertion order, so a summary is a
  list of buckets in first-appearance order of the key. The loop `Group` is
  proved equal to the fold `Summary`. `SummarySpec` states what every summary
  is.
- **Dashboard** (`Dashboard`). Category totals are a map from category id to
  amount. Monthly income/expense buckets use a month labeller that is given as
  a parameter.
- **Reports** (`Reports`). Daily buckets keyed by the part of the date-time
  before the first `T`, and the running balance trend.
- **Accounts** (`Accounts`). The total balance, and the icon kind for an
  account type.
- **Categories** (`Categories`). The map from each top-level category's id to
  that category with its direct children.
- **Budgets** (`Budgets`). Utilisation in percent, the bar width and the
  near-limit flag.
- **Notifications** (`Notifications`). The unread dot, the icon kind for a
  notification type, and the relative-time label.
- **Support modules.** `Common` holds `Option`. `JsText` holds the JavaScript
  string built-ins used: `toUpperCase`, `toLowerCase`, `split(sep)[0]` and the
  decimal text of a number. `Records` holds the entities and the INCOME and
  EXPENSE sums.

Amounts and balances are integers, and budget utilisation is a real number.
Identifiers are integers. A category's `parentId` is optional, and both an
absent value and `0` count as "no parent", as `!parentId` does.

Three behaviours of the code worth noting:

- **Category totals.** The dashboard's category totals are keyed by integer
  ids, which JavaScript enumerates in ascending order rather than insertion
  order. They are therefore a map, not a first-appearance list.
- **Restoring from storage.** Startup parses the stored value without any
  recovery. There is no "unreadable storage means signed out" path.
- **Daily buckets.** In the reports, a transaction of a type other than
  INCOME or EXPENSE still creates its day's bucket, but adds nothing to it.

## Model

| member | source | states |
|---|---|---|
| AuthSlice.Session.constructor | src/slices/userSlices/authSlice.jsx:3-7 | On startup the record is the stored value when the key is present, and null otherwise. Memory and storage agree. |
| AuthSlice.Session.GetCredentials | src/slices/userSlices/authSlice.jsx:13-16 | The payload becomes the record and is written to the slot. Restoring gives the payload back, `null` included. |
| AuthSlice.Session.LogOut | src/slices/userSlices/authSlice.jsx:17-20 | The record becomes null, the key is removed, and memory and storage agree. |
| AuthSlice.Session.UpdateUserInfo | src/slices/userSlices/authSlice.jsx:21-30 | Without a session nothing changes. With one, the record becomes the old record merged with the patch and the slot holds it. Agreement of memory and storage is preserved. |
| AuthSlice.Restore | src/slices/userSlices/authSlice.jsx:4-6 | A restored record comes from a persisted value, or is null because the key is absent. |
| AuthSlice.RestorePersist | src/slices/userSlices/authSlice.jsx:4-6 | Reading back what was written gives it again, `null` included. |
| AuthSlice.Persist | src/slices/userSlices/authSlice.jsx:15 | Writing a record leaves the key present. |
| AuthSlice.Merge | src/slices/userSlices/authSlice.jsx:23-26 | The keys are the union of the two records. The patch's fields take the patch's values, and every other field keeps its old value. |
| AuthSlice.MergeLaws | src/slices/userSlices/authSlice.jsx:23-26 | An empty patch changes nothing. A repeated patch has no further effect. Two patches in a row equal their merge applied once. |
| AuthSlice.ReloadAfterSignIn | src/slices/userSlices/authSlice.jsx:13-16 | After sign-in, a reload restores exactly the payload. |
| AuthSlice.SignOutTwice | src/slices/userSlices/authSlice.jsx:17-20 | Signing out twice leaves the same state as once: no record and no key. |
| AuthSlice.ReloadAfterUpdate | src/slices/userSlices/authSlice.jsx:21-30 | After an update, a reload gives the merged record if a session was stored, and null if none was. With an empty patch, the reload gives the stored record. |
| JsText.ToUpper | src/pages/Accounts.jsx:7 | Same length. Each lower-case ASCII letter becomes its upper-case partner, dotless i becomes `I`, long s becomes `S`, and every other character is kept, so no lower-case ASCII letter is left. |
| JsText.ToLower | src/components/NotificationPopUp.jsx:40 | Same length. Each upper-case ASCII letter becomes its lower-case partner, the Kelvin sign becomes `k`, and every other character is kept, so no upper-case ASCII letter is left. |
| JsText.BeforeFirst | src/pages/Reports.jsx:44 | The result is the longest prefix free of the separator: it has no separator and ends at the input's end or at a separator. |
| JsText.Decimal | src/components/NotificationPopUp.jsx:60-62 | A non-empty string of digits with no leading zero. |
| JsText.DecimalRoundTrip | src/components/NotificationPopUp.jsx:60-62 | The numeral reads back as the number it was made from. |
| Grouping.Add | src/pages/Reports.jsx:45-47 | After a step the key has a bucket, and no other key appears. |
| Grouping.AddWellFormed | src/pages/Reports.jsx:45-47 | Creating a bucket on first sight keeps each key in the creation order exactly once. |
| Grouping.FoldWellFormed | src/pages/Reports.jsx:43-54 | Starting from `{}`, the accumulator stays well formed: no key twice, and the order list and the totals hold the same keys. |
| Grouping.FirstIndex | src/pages/Reports.jsx:56 | The position of the first occurrence, and the length exactly when the key is absent. |
| Grouping.OrderStep | src/pages/Reports.jsx:45-47 | Scanning one more key keeps the creation order in first-appearance order. |
| Grouping.FoldOrder | src/pages/Dashboard.jsx:104-119 | The buckets come out once per distinct key, in first-appearance order. |
| Grouping.FoldTotals | src/pages/Dashboard.jsx:106-111 | Each bucket holds exactly the contributions of the transactions with its key, starting from zero. |
| Grouping.EntriesAdd | src/pages/Reports.jsx:45-53 | One reduce step adds exactly its contribution to the grand totals of the buckets, whether it creates a bucket or updates one in place. |
| Grouping.SummaryTotals | src/pages/Reports.jsx:43-56 | The buckets together hold every contribution exactly once. |
| Grouping.SummarySpec | src/pages/Reports.jsx:43-56 | A summary has first-appearance key order, per-key totals and a grand total equal to the whole input. |
| Grouping.Group | src/pages/Reports.jsx:43-56 | The loop that mutates buckets in place computes the summary. |
| Dashboard.CategoryFoldMeaning | src/pages/Dashboard.jsx:90-100 | There is one entry per distinct category id of the input. Each entry is the sum of that category's amounts, INCOME and EXPENSE alike. |
| Dashboard.CategoryTotalsSum | src/pages/Dashboard.jsx:90-95 | The category totals add up to the sum of all amounts. |
| Dashboard.MonthKeyTotals | src/pages/Dashboard.jsx:104-113 | A month's bucket holds its INCOME amounts as income and all its other amounts as expense. |
| Dashboard.MonthlySplitTotals | src/pages/Dashboard.jsx:107-111 | Income collects exactly the INCOME amounts. Income plus expense is the sum of all amounts. |
| Dashboard.MonthlyBuckets | src/pages/Dashboard.jsx:104-119 | There is one bucket per distinct month label, in first-appearance order, with per-month income and expense. The totals cover every amount. |
| Dashboard.GroupByCategory | src/pages/Dashboard.jsx:90-95 | The in-place loop that resets falsy entries computes the category totals. |
| Dashboard.ProcessChartData | src/pages/Dashboard.jsx:88-121 | Computes the category totals, whose keys are the input's category ids and whose values sum to the total amount. Computes the monthly buckets, whose income and expense sum to the total amount. |
| Reports.DateKey | src/pages/Reports.jsx:44 | The date key is the prefix of the date-time before the first `T`. |
| Reports.DayKeyTotals | src/pages/Reports.jsx:45-53 | A day's bucket holds that day's INCOME amounts as income and its EXPENSE amounts as expense. |
| Reports.DailySplitOne | src/pages/Reports.jsx:48-52 | One transaction adds its amount to income when it is INCOME and to expense when it is EXPENSE, never to both. |
| Reports.DailySplitTotals | src/pages/Reports.jsx:48-52 | Across buckets, income is all INCOME and expense is all EXPENSE. Other types add to neither. |
| Reports.DailyBuckets | src/pages/Reports.jsx:43-56 | There is one bucket per distinct date key, in first-appearance order, including days with only other types. Totals are as above. The summary is empty exactly when the input is. |
| Reports.NetIsTotals | src/pages/Reports.jsx:59-62 | The net of a run of buckets is its total income minus its total expense. |
| Reports.BalanceHistory | src/pages/Reports.jsx:59-63 | The history has the same length and the same dates as the summary. The first balance is income minus expense, and each later one adds its bucket's net to the previous. |
| Reports.GenerateReport | src/pages/Reports.jsx:43-65 | Computes the summary and the history. Each point has its day's date and the net of all days up to it, so each balance is the previous one plus that day's net. The last balance is total INCOME minus total EXPENSE. |
| Accounts.TotalBalanceAppend | src/pages/Accounts.jsx:53 | No accounts give 0, and one more account adds exactly its balance. The same fold is the dashboard's `totalBalance` (src/pages/Dashboard.jsx:123). |
| Accounts.TotalBalanceConcat | src/pages/Accounts.jsx:53 | The total of two lists is the sum of their totals. |
| Accounts.TotalBalanceRemove | src/pages/Accounts.jsx:53 | Taking one account out of the list takes exactly its balance out of the total. |
| Accounts.TotalBalancePermutation | src/pages/Accounts.jsx:53 | The total does not depend on the order of the accounts. |
| Accounts.AccountIconFor | src/pages/Accounts.jsx:6-17 | A type whose upper case is BANK gives the credit card, MOBILE_MONEY the smartphone, and CASH the cash wallet. A missing type, or any other type, gives the default wallet, and only those do. |
| Accounts.AccountIconIgnoresCase | src/pages/Accounts.jsx:7-13 | Upper-casing the type first selects the same icon. So does lower-casing it first, unless it contains a Kelvin sign. |
| Accounts.KelvinSignException | src/pages/Accounts.jsx:7-8 | `BAN` followed by a Kelvin sign gives the default wallet, while its lower-case form `bank` gives the credit card. |
| Categories.ChildrenOfMembers | src/pages/Categories.jsx:45 | A root's children are exactly the categories whose parent id is the root's id. |
| Categories.ChildrenOfConcat | src/pages/Categories.jsx:45 | The filter keeps input order. |
| Categories.LastRootIndex | src/pages/Categories.jsx:41-43 | Gives the position of the last root with a given id, or -1 when there is none. |
| Categories.OrganizedMeaning | src/pages/Categories.jsx:40-49 | There is an entry for exactly the ids of the root categories. Each entry is the last root with that id, with its children. |
| Categories.OrganizeEntries | src/pages/Categories.jsx:40-49 | Every entry is a root of the input under its own id, with a children list, possibly empty. Every root has an entry. |
| Categories.LaterRootWins | src/pages/Categories.jsx:43 | When two roots share an id, the later one is kept. |
| Categories.ChildOfOneEntry | src/pages/Categories.jsx:43-45 | No category is a child of two entries. |
| Categories.OrphanAppearsNowhere | src/pages/Categories.jsx:40-49 | A category with a truthy parent id that names no root is neither an entry nor anyone's child. |
| Categories.OrganizeCategories | src/pages/Categories.jsx:40-49 | The in-place insertion loop computes the organised map. Every entry it holds is a root with its children. |
| Budgets.Utilization | src/pages/Budgets.jsx:41-43 | Utilisation times the limit is the amount times 100, with no cap. When the amount equals the limit it is exactly 100. |
| Budgets.BudgetBar | src/pages/Budgets.jsx:98 | The width is at most 100 and at most the utilisation, and equals one of the two. |
| Budgets.NearLimitIff | src/pages/Budgets.jsx:99 | The bar is flagged exactly when the amount is more than 90 percent of a positive limit (or less, for a negative limit). Exactly 90 is not flagged. |
| Budgets.OverLimit | src/pages/Budgets.jsx:42 | Over a positive limit, utilisation exceeds 100 while the bar stays full and flagged. |
| Budgets.Examples | src/pages/Budgets.jsx:41-43 | 190 of 200 is 95 percent and flagged. 180 of 200 is 90 percent and not flagged. |
| Notifications.HasUnread | src/components/NotificationPopUp.jsx:29 | True exactly when some notification is unread, so false for an empty list. |
| Notifications.UnreadDot | src/components/NotificationPopUp.jsx:29 | A list in which every notification is read shows no dot. An unread notification anywhere shows it, and one more read notification changes nothing. |
| Notifications.NotificationIconFor | src/components/NotificationPopUp.jsx:39-50 | A type whose lower case is transaction gives the dollar sign, account the credit card, and alert the alert circle. A missing type, or any other type, gives the clock, and only those do. |
| Notifications.NotificationIconIgnoresCase | src/components/NotificationPopUp.jsx:40 | Lower-casing the type first changes nothing. Upper-case spellings select their icons. |
| Notifications.AgoLabel | src/components/NotificationPopUp.jsx:60-62 | A label starts with a digit, so it is never "Just now". |
| Notifications.FloorSteps | src/components/NotificationPopUp.jsx:55-58 | Successive floor divisions by 1000, 60, 60 and 24 equal single divisions by their products. |
| Notifications.TimeAgo | src/components/NotificationPopUp.jsx:52-64 | "Just now" exactly below 60000 ms, future times included. Days from 86400000 ms. Otherwise hours, only 1 to 23, or minutes, only 1 to 59. Each label is the floored count and its unit. |
| Notifications.AgoLabelExamples | src/components/NotificationPopUp.jsx:60-62 | "1 day ago", "2 days ago" and "1 minute ago": the plural "s" appears from two on. |

## Left out

- **HTTP and rendering.**
  - Every HTTP fetch and its error handling is outside the model.
  - So are the JSX rendering, the charts, toasts and the open/close state of modals and the pop-up.
  - The "Mark all as read" button has an empty handler, so there is nothing to model.
- **Routing and RTK Query.**
  - Route configuration and the route guard are not part of this model. `./layout/ProtectedRoutes` is not part of this model.
  - The RTK Query configuration (`apiSlice.jsx`, `userApiSlice.jsx`, `store.js`) is a wrapper over a library, and is not part of this model. Note that `apiSlice.jsx` reads the token as `access_token`, while every view reads `accessToken`.
- **Numbers and coercion.**
  - Numbers are mathematical integers and reals. JavaScript floating-point rounding, NaN and Infinity are not modelled.
  - `Number()` coercion of string amounts is not modelled, nor is string concatenation by `+=` on non-numeric amounts in the reports.
- Budgets.Utilization: requires a non-zero limit, because the code divides without a guard and a zero limit yields NaN or Infinity.
- **The environment is given as parameters.**
  - Dashboard.MonthlySummary: takes the month label as a function parameter. `toLocaleString` with a short month name is not modelled.
  - Notifications.TimeAgo: takes the elapsed milliseconds as a parameter. The clock and `Date` parsing of the timestamp are not modelled.
- **Storage.**
  - The storage slot holds the value itself. JSON serialisation is taken to round-trip.
  - A payload that is not an object or null, such as `undefined`, whose serialised form would not parse back, is not modelled.
  - Stored text that is not valid JSON is not modelled. The code would throw while starting up, since it has no recovery, except for the empty string: it is falsy, so the test at line 4 of `authSlice.jsx` turns it into null without parsing.
- **Text.**
  - `ToUpper` models the ASCII letters plus the two non-ASCII letters whose upper case is a single ASCII letter: dotless i and long s. `ToLower` models the ASCII letters plus the Kelvin sign, whose lower case is `k`. Other Unicode case mappings are left out. None of them turns a character into the compared words: the letters and ligatures that upper-case to several ASCII letters (`ß`, `ﬀ`, `ﬁ`, `ﬂ`, `ﬃ`, `ﬄ`, `ﬅ`, `ﬆ`) give SS, FF, FI, FL, FFI, FFL or ST, which no compared word contains, and capital I with dot lower-cases to `i` plus a combining dot, which is not ASCII.
  - A date key or month label that is integer-like would enumerate in ascending order in JavaScript, not insertion order. It is not modelled, because dates contain `-` and month labels are names.
  - A date key or month label that names a member the `{}` accumulator inherits from `Object.prototype` (`constructor`, `toString`, `valueOf`, `hasOwnProperty`, `__proto__`, …) is not modelled. For such a key `!acc[key]` is false, so the code creates no bucket, and `+=` writes NaN onto the inherited member. `Grouping.Add` always creates a bucket.
- Reports.DailyBuckets: holds only for date keys that name no inherited object member; for such a key the code gives no bucket. ISO dates never name one.
- Dashboard.MonthlyBuckets: holds only for month labels that name no inherited object member; for such a label the code gives no bucket. Month names never name one.
- **Category identifiers.** Identifiers are integers. Non-numeric category identifiers, which would make the organised categories enumerate in insertion order, are not modelled.
- Accounts.AccountIconIgnoresCase: lower-casing a type first keeps its icon only when the type holds no Kelvin sign. `toLowerCase` maps the Kelvin sign to `k` while `toUpperCase` keeps it, so `BAN` plus a Kelvin sign and its lower-case form pick different icons (`KelvinSignException`).
- AuthSlice.Session.UpdateUserInfo: the patch is a record. A payload that is not an object is not modelled. Spreading `null`, `undefined`, a number or a boolean merges no fields; spreading a string merges its characters under the keys "0", "1", and so on, and line 28 of `authSlice.jsx` persists them.
- Notifications.HasUnread: `read` is a boolean. Truthy or falsy non-boolean values are not modelled.
