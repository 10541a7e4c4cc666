# daxiangmu dashboard — a Dafny model

daxiangmu is an Ant Design Pro / UmiJS admin dashboard for a trading desk.
This project models, in Dafny, the logic its pages and its application shell
run:

- the **advice-report page**: type and importance filters, the eight-card list window, the `toggleFavorite` handler (which no control on the page calls), and the approve/reject review of pending reports;
- the **message list**: a case-sensitive substring search over titles and contents, marking read or unread, deleting, and the type labels;
- the **application shell**: the side menu the layout requests (remote menu, or the local route table without its 404 route), the `curModel` entry kept in local storage on every route change, and the request interceptor that attaches a bearer token or clears the session;
- the **basic layout**: the highlighted menu key and the breadcrumb, both found by path-prefix matching;
- the **add-user form** and the **user list**: the record the form builds, and the list's one-time append of that record under a timestamp key;
- the **portfolio page**: total market value, total profit, investment, profit rate and the green/red sign rule. Its time-range selection has no effect.

Each page is a module. Pure computations are functions with lemmas about them.
A page's React state is a class whose methods update its fields. Each method
is specified by functions of the old state.

Two modules are shared:
- `Wrappers` holds `Option` and `Present`, JavaScript truthiness of an optional string.
- `Seqs` holds `Filter` and `Find`, which model JavaScript's `Array.prototype.filter` and `find`, with their order-preservation, membership and multiplicity lemmas.

The source has some behaviour that is easy to misread. The model keeps it as written:
- The message search uses `String.prototype.includes`, so it is case-sensitive: searching `btc` does not find `BTC`. `MessageList.IncludesIsCaseSensitive` states this.
- Approve and reject update the selected report's copy. `toggleFavorite` does not.
- A request without a header object gets a throw-away header array, so a token written into it never reaches the request.
- An expired access token is still attached when no refresh token is stored.
- The `newUser` record keeps its `gender` through the object spread.
- A tags array that is present but empty is kept, because an empty array is truthy.
- A review acts on every report with the selected id, so only ids that are unique keep reviewed reports safe from a later review.

## Model

| member | source | states |
|---|---|---|
| Seqs.Filter | src/pages/Display/MessageList.tsx:76 | `filter` keeps exactly the elements that pass, each taken from the input |
| Seqs.FilterCount | src/pages/Display/MessageList.tsx:76 | every copy of a passing element is kept and no copy of a failing one |
| Seqs.Find | src/components/Layout/BaseLayout.tsx:31 | `find` gives nothing exactly when no element passes, and otherwise the first element that passes |
| AdviceReport.TypeText | src/pages/Display/AdviceReport.tsx:153-168 | each of the five report types gets its own label; the label is `其他` exactly when the type is none of them |
| AdviceReport.ImportanceText | src/pages/Display/AdviceReport.tsx:198-207 | every importance level is shown as one of `重要`, `一般`, `参考` |
| AdviceReport.ImportanceTextInjective | src/pages/Display/AdviceReport.tsx:198-207 | no two importance levels share a label |
| AdviceReport.MatchesFilters | src/pages/Display/AdviceReport.tsx:210-212 | a report passes when each select is `all` or equals its type / importance code |
| AdviceReport.FilteredReports | src/pages/Display/AdviceReport.tsx:209-213 | a report is kept exactly when it passes both selects, with as many copies as the list has; kept reports come from the list |
| AdviceReport.FilteredReportsIsSubsequence | src/pages/Display/AdviceReport.tsx:209-213 | filtering keeps the reports in list order |
| AdviceReport.FilteredReportsAllIsIdentity | src/pages/Display/AdviceReport.tsx:209-213 | with both selects on `all` the filtered list is the whole list |
| AdviceReport.VisibleReports | src/pages/Display/AdviceReport.tsx:275 | the list card shows a prefix of the filtered reports of length min(8, number filtered) |
| AdviceReport.FavoriteToggled | src/pages/Display/AdviceReport.tsx:145-151 | the favourite flag flips on reports with the id and nothing else changes in any report |
| AdviceReport.FavoriteToggledTwice | src/pages/Display/AdviceReport.tsx:145-151 | toggling the same id twice restores the list |
| AdviceReport.SetStatus | src/pages/Display/AdviceReport.tsx:221-225 | reports with the id get the new status; every other field and every other report is unchanged |
| AdviceReport.SetStatusIdempotent | src/pages/Display/AdviceReport.tsx:236-240 | applying the same review twice is applying it once |
| AdviceReport.ReviewEnabled | src/pages/Display/AdviceReport.tsx:349-358 | the review buttons are enabled only while a pending report is selected |
| AdviceReport.SetStatusKeepsIds | src/pages/Display/AdviceReport.tsx:221-225 | a review changes no report's id, so unique ids stay unique |
| AdviceReport.GatedReviewKeepsSettled | src/pages/Display/AdviceReport.tsx:216-244 | when the review buttons are enabled and the selection agrees with the list, a review leaves every approved or rejected report unchanged |
| AdviceReport.ReviewStep | src/pages/Display/AdviceReport.tsx:345-360 | the review buttons are enabled exactly for a pending report; approve leads to approved, reject to rejected |
| AdviceReport.GateIsStep | src/pages/Display/AdviceReport.tsx:349-358 | on a selected report the buttons are enabled exactly when the review machine has a step for its status |
| AdviceReport.ReviewIsFinal | src/pages/Display/AdviceReport.tsx:345-360 | after one review the buttons stay disabled |
| AdviceReport.ReportReviewPage.constructor | src/pages/Display/AdviceReport.tsx:34-38 | initial state: both selects `all`, no date range, nothing selected |
| AdviceReport.ReportReviewPage.ListView | src/pages/Display/AdviceReport.tsx:275 | the list shown is the eight-card window, a prefix of the filtered reports |
| AdviceReport.ReportReviewPage.SetReportType | src/pages/Display/AdviceReport.tsx:251 | the type select stores its value |
| AdviceReport.ReportReviewPage.SetImportance | src/pages/Display/AdviceReport.tsx:260 | the importance select stores its value |
| AdviceReport.ReportReviewPage.SetDateRange | src/pages/Display/AdviceReport.tsx:267 | the date picker stores its value, which nothing reads |
| AdviceReport.ReportReviewPage.SelectReport | src/pages/Display/AdviceReport.tsx:279 | clicking a shown card selects a copy of that report; when ids are unique the selection then agrees with the list |
| AdviceReport.ReportReviewPage.ToggleFavorite | src/pages/Display/AdviceReport.tsx:145-151 | `toggleFavorite`, which no control on the page calls: the list becomes the toggled list; the selection is left as it was, stays in sync on status, and ids stay unique |
| AdviceReport.ReportReviewPage.Approve | src/pages/Display/AdviceReport.tsx:216-229 | with no selection nothing happens; otherwise list entries with the selected id and the selected copy become approved, agree, and can no longer be reviewed; through the gate with an in-sync selection every approved or rejected report is left unchanged; ids stay unique |
| AdviceReport.ReportReviewPage.Reject | src/pages/Display/AdviceReport.tsx:231-244 | the same as approve, with the rejected status |
| MessageList.Includes | src/pages/Display/MessageList.tsx:80 | `String.prototype.includes`: the needle is a prefix of the text or is included in its tail |
| MessageList.IncludesIffOccurs | src/pages/Display/MessageList.tsx:80 | `includes` holds exactly when the needle occurs at some position of the text |
| MessageList.IncludesEmpty | src/pages/Display/MessageList.tsx:79-81 | the empty search text is included in every text |
| MessageList.IncludesIsCaseSensitive | src/pages/Display/MessageList.tsx:80 | `BTC` does not include `btc` |
| MessageList.MatchesSearch | src/pages/Display/MessageList.tsx:80 | the search callback: the title or the content includes the search text |
| MessageList.FilteredMessages | src/pages/Display/MessageList.tsx:79-81 | a message is shown exactly when its title or content includes the search text, with as many copies as the inbox has |
| MessageList.FilteredMessagesIsSubsequence | src/pages/Display/MessageList.tsx:79-81 | the search keeps messages in inbox order |
| MessageList.FilteredMessagesEmptySearch | src/pages/Display/MessageList.tsx:79-81 | the empty search shows the whole inbox |
| MessageList.SetRead | src/pages/Display/MessageList.tsx:59-73 | messages with the key get the read flag; every other field and message is unchanged |
| MessageList.SetReadIdempotent | src/pages/Display/MessageList.tsx:59-65 | marking twice is marking once |
| MessageList.SetReadLastWins | src/pages/Display/MessageList.tsx:59-73 | marking read then unread (or the reverse) leaves the last mark |
| MessageList.SearchIgnoresReadFlag | src/pages/Display/MessageList.tsx:59-81 | searching commutes with marking |
| MessageList.FilterIgnoresReadFlag | src/pages/Display/MessageList.tsx:59-81 | the induction behind it: the underlying filter commutes with marking |
| MessageList.SearchKeysIgnoreReadFlag | src/pages/Display/MessageList.tsx:59-81 | marking never changes which keys the search shows, nor their order |
| MessageList.KeyIsNot | src/pages/Display/MessageList.tsx:76 | the delete callback `item.key !== key`: the message's key differs from the deleted one |
| MessageList.DeleteKey | src/pages/Display/MessageList.tsx:75-77 | exactly the messages with another key survive, every copy of each |
| MessageList.DeleteKeyIsSubsequence | src/pages/Display/MessageList.tsx:75-77 | survivors keep their order |
| MessageList.DeleteAbsentKey | src/pages/Display/MessageList.tsx:75-77 | deleting an absent key changes nothing |
| MessageList.DeleteKeyIdempotent | src/pages/Display/MessageList.tsx:75-77 | deleting twice is deleting once |
| MessageList.DeletedKeyNotShown | src/pages/Display/MessageList.tsx:75-81 | after deleting, no search shows the key |
| MessageList.TypeText | src/pages/Display/MessageList.tsx:98-111 | each of the four message types gets its own label; `其他` exactly for any other type |
| MessageList.Inbox.constructor | src/pages/Display/MessageList.tsx:18-53 | the inbox starts with the given messages and an empty search |
| MessageList.Inbox.Shown | src/pages/Display/MessageList.tsx:180 | with an empty search the table shows every message |
| MessageList.Inbox.Search | src/pages/Display/MessageList.tsx:55-57 | the submitted text becomes the search text |
| MessageList.Inbox.MarkRead | src/pages/Display/MessageList.tsx:59-65 | the inbox becomes the inbox with that key marked read |
| MessageList.Inbox.MarkUnread | src/pages/Display/MessageList.tsx:67-73 | the inbox becomes the inbox with that key marked unread |
| MessageList.Inbox.Delete | src/pages/Display/MessageList.tsx:75-77 | the inbox loses the key, and the table no longer shows it |
| App.ToMenuEntry | src/app.tsx:99-103 | path, name and icon are copied; missing child routes become `[]` |
| App.MenuEntries | src/app.tsx:99-103 | one menu entry per route, in route order |
| App.NotWildcard | src/app.tsx:104 | the menu filter `menu.path !== '*'`: the entry's path is not `*` |
| App.RouteNotWildcard | src/app.tsx:99-104 | the same test on a route, before conversion, since conversion keeps the path |
| App.FallbackMenu | src/app.tsx:99-104 | the fallback menu holds no `*` entry |
| App.FallbackMenuIsConvertedRoutes | src/app.tsx:99-104 | filtering converted entries equals converting the non-`*` routes |
| App.MenuRequest | src/app.tsx:87-108 | no user id gives no menu; a stored remote menu is returned as is; otherwise the converted routes without `*` |
| App.ConfigFallbackMenu | config/routes.ts:5-103 | for the project's route table the fallback menu is every route but the trailing 404 |
| App.AllButLastWildcard | src/app.tsx:104 | a table whose only `*` route is the last one loses exactly that route |
| App.Split | src/app.tsx:187 | `split('/')` gives at least one piece |
| App.Join | src/app.tsx:187 | the pieces joined with `/`, the inverse of `split('/')` |
| App.JoinSplit | src/app.tsx:187 | joining the pieces with `/` gives back the path |
| App.SplitPiecesHaveNoSlash | src/app.tsx:187 | no piece holds a slash |
| App.NonEmpty | src/app.tsx:187 | `filter(Boolean)` on strings: a piece is kept exactly when it is not empty |
| App.FirstPathName | src/app.tsx:187-188 | `split('/').filter(Boolean)` then the first piece, or `""` when none is left |
| App.FirstPathNameIsFirstSegment | src/app.tsx:187-188 | the first non-empty piece is what follows the leading slashes, up to the next slash |
| App.FirstPathNameProperties | src/app.tsx:187-188 | the first path name holds no slash, is empty exactly for all-slash paths, and ends at a slash or at the end of the path |
| App.StorageAfterRoute | src/app.tsx:186-193 | a non-empty first path name becomes `curModel`; an empty one leaves storage alone; no other key changes |
| App.RouteChangeIdempotent | src/app.tsx:186-193 | a second change to the same path changes nothing |
| App.LocalStorage.OnRouteChange | src/app.tsx:178-194 | storage becomes the storage after the route change |
| App.HeaderTruthy | src/app.tsx:223-226 | JavaScript truthiness of a header lookup: a missing header (`undefined`) is falsy, a string is truthy exactly when non-empty, a boolean is itself; header values are modelled as only strings or booleans |
| App.Lookup | src/app.tsx:223-225 | `headers[name]`: the stored value, or nothing (`undefined`) for a name not set; the throw-away `[]` is the empty header map |
| App.TokenLogicApplies | src/app.tsx:224-226 | `!authHeader && isToken !== false`: the token logic runs unless `Authorization` is truthy or `isToken` is exactly `false` |
| App.Decide | src/app.tsx:222-246 | set `Authorization` or `isToken === false` skip everything; no expiry clears the session; inside the five-minute window with a refresh token nothing is attached and the session is cleared exactly when already expired; otherwise `Bearer <token>` is attached exactly when an access token exists; never both clear and attach |
| App.ExpiredTokenHandling | src/app.tsx:228-240 | an expired token is still attached when there is no refresh token, and cleared without being attached when there is one |
| App.Session.Clear | src/app.tsx:233 | the access token, refresh token and expiry are all removed |
| App.Intercept | src/app.tsx:222-246 | the request's headers and the session end up as the decision says; without a header object the request's headers are not touched |
| BaseLayout.Breadcrumb | src/components/Layout/BaseLayout.tsx:57-62 | exactly the menu items whose path starts the current path, each as often as the menu lists it |
| BaseLayout.Matches | src/components/Layout/BaseLayout.tsx:31 | `currentPath.startsWith(item.path)`: the item's path is a prefix of the current path |
| BaseLayout.BreadcrumbIsSubsequence | src/components/Layout/BaseLayout.tsx:58-59 | in menu order |
| BaseLayout.SelectedKey | src/components/Layout/BaseLayout.tsx:31 | the key of the first menu item whose path starts the current path, falling back to `1` |
| BaseLayout.SelectedKeyIsFirstMatch | src/components/Layout/BaseLayout.tsx:31 | the highlighted key is that of the first matching item, or `1` when none matches |
| BaseLayout.SelectedKeyIsDeclared | src/components/Layout/BaseLayout.tsx:24-31 | the highlighted key is one of `1`–`4` |
| BaseLayout.FoundKeyIsSet | src/components/Layout/BaseLayout.tsx:24-31 | every menu key is non-empty, so a found item's key is used and the `'1'` fallback applies only when nothing matches |
| BaseLayout.SelectedKeyIsBreadcrumbHead | src/components/Layout/BaseLayout.tsx:31-62 | the highlighted key is the breadcrumb's first key, or `1` for an empty breadcrumb |
| BaseLayout.MenuPathsPrefixFree | src/components/Layout/BaseLayout.tsx:24-29 | no menu path is a prefix of another |
| BaseLayout.BreadcrumbAtMostOne | src/components/Layout/BaseLayout.tsx:24-62 | the breadcrumb has at most one entry |
| BaseLayout.Layout.constructor | src/components/Layout/BaseLayout.tsx:18 | the current path starts as the location's path |
| BaseLayout.Layout.OnLocationChange | src/components/Layout/BaseLayout.tsx:20-22 | the current path follows the location |
| BaseLayout.Layout.Selected | src/components/Layout/BaseLayout.tsx:31 | the highlighted key is a declared one |
| BaseLayout.Layout.Crumbs | src/components/Layout/BaseLayout.tsx:57-62 | at most one breadcrumb entry is shown |
| UserAdd.OnFinish | src/pages/User/Add.tsx:12-23 | name, age and gender are copied; an empty or missing address becomes `未填写`; tags `[新用户]`, status `active` |
| UserAdd.Submit | src/pages/User/Add.tsx:60-100 | a record is produced exactly when username, age and gender are filled in and the age is within 0–150 |
| UserList.NatToDecimal | src/pages/User/List.tsx:38 | `String(Date.now())` is a non-empty digit string without a leading zero |
| UserList.DecimalRoundTrip | src/pages/User/List.tsx:38 | reading the key back gives the timestamp |
| UserList.DistinctTimestampsDistinctKeys | src/pages/User/List.tsx:38 | different timestamps give different keys |
| UserList.WithKey | src/pages/User/List.tsx:36-42 | the parsed fields are kept, the key comes from the timestamp, and missing or empty address, tags and status get their defaults |
| UserList.AddedUserArrivesUnchanged | src/pages/User/List.tsx:29-42 | a record built by the add form reaches the table unchanged apart from its new key |
| UserList.UserListPage.constructor | src/pages/User/List.tsx:20-25 | the table starts with the given users |
| UserList.UserListPage.OnSearchChange | src/pages/User/List.tsx:28-55 | with a non-empty `newUser` that parses, the user is appended once and the parameter cleared; otherwise nothing changes; earlier rows are never touched |
| PortfolioData.Reduce | src/pages/Display/PortfolioData.tsx:90-91 | `reduce((sum, item) => sum + f(item), acc)` as a left fold |
| PortfolioData.ReduceIsSum | src/pages/Display/PortfolioData.tsx:90-91 | the `reduce` from an initial value is that value plus the sum |
| PortfolioData.TotalMarketValue | src/pages/Display/PortfolioData.tsx:90 | the sum of the market values, 0 for no holdings |
| PortfolioData.TotalProfit | src/pages/Display/PortfolioData.tsx:91 | the sum of the profits, 0 for no holdings |
| PortfolioData.TotalInvestment | src/pages/Display/PortfolioData.tsx:92 | market value less profit |
| PortfolioData.TotalInvestmentIsTotalCost | src/pages/Display/PortfolioData.tsx:92 | the investment is the sum over holdings of market value less profit |
| PortfolioData.TotalsAppend | src/pages/Display/PortfolioData.tsx:90-91 | totals over two lists of holdings add up |
| PortfolioData.TotalProfitRate | src/pages/Display/PortfolioData.tsx:93 | 0 unless the investment is positive; otherwise rate × investment = 100 × profit, with the profit's sign |
| PortfolioData.SignColour | src/pages/Display/PortfolioData.tsx:95-107 | green exactly for values at or above zero |
| PortfolioData.RateColourMatchesProfitColour | src/pages/Display/PortfolioData.tsx:192-208 | the rate card has the profit card's colour when something was invested, green otherwise |
| PortfolioData.View | src/pages/Display/PortfolioData.tsx:179-227 | the cards show the totals, the profit rate and the holding count, and the table shows every holding |
| PortfolioData.ViewIgnoresSelections | src/pages/Display/PortfolioData.tsx:23-24 | changing the time range or date range never changes what is shown |
| PortfolioData.SamplePortfolioSummary | src/pages/Display/PortfolioData.tsx:26-93 | for the five listed holdings: market value 75280, profit 2710, investment 72570, a positive green rate |

## Left out

- Rendering: JSX, icons, tag and text colours other than the profit sign rule, `console` output and `message` toasts. None of these affect state.
- Floating point: amounts are exact reals, and `toFixed(2)` formatting is not modelled.
- `JSON.stringify`/`JSON.parse` and `encodeURIComponent` on the `newUser` handoff. The parse result is a parameter of `UserList.UserListPage.OnSearchChange`: None stands for a parse that throws. `UserList.Transported` is the round trip of a well-formed record.
- `Date.now()` and `new Date().getTime()` are parameters (`now`).
- `history.push`/`history.replace` navigation. Clearing the search string is modelled as clearing the `newUser` parameter.
- `getInitialState`, `onPageChange`'s login redirect, `render`, the error configuration and the response interceptors.
- The services behind `getRemoteMenu` and `getUserInfo`. The remote menu and the user id are parameters of `App.MenuRequest`.
- `src/access.ts` is not part of this model. `App.Session.Clear` assumes `clearSessionToken` removes the access token, the refresh token and the expiry.
- `App.Decide`: the stored expiry is taken as a number, or as absent; a falsy or non-numeric stored value (`NaN`) is not modelled separately.
- `App.Intercept`: the throw-away header array for a request without headers is modelled as a fresh object that the request never sees.
- `UserAdd.Submit`: the age bound (0–150) belongs to the number input rather than to a validation rule. It is modelled as part of validation. The `required` rules are modelled as "present and non-empty".
- The message list's `全部标记为已读` button has no handler, and neither have the user list's edit and delete buttons. The user list imports a search input but renders none. Nothing of them is modelled.
- `App.Route` keeps only a route's path, name, icon and children. The child routes that `route.routes || []` passes through therefore lose `redirect`, `component` and `layout` (config/routes.ts:23, 68, 100). The same holds for the entries of `App.ConfigRoutes`.
- AdviceReport.ReportReviewPage.Approve: settled reports are promised unchanged only when the selection agrees with the list. With two reports sharing an id, selecting the pending one and approving or rejecting also overwrites the settled one, as the source's `map` over ids does. The sample data has unique ids, and `SelectReport` establishes the agreement when ids are unique.
- AdviceReport.ReportReviewPage.Reject: the same as for `Approve`.
- `toggleFavorite`: the page imports the star icons but renders no control that calls it. The model covers the handler anyway, as `AdviceReport.ReportReviewPage.ToggleFavorite`.
- UserAdd.Submit: ages are whole numbers (`int`) in the model. The source's number input sets no precision, so it also accepts fractional ages, which the model does not represent.
- `App.HeaderTruthy`: header values are only strings or booleans. A numeric, object or other header value, and JavaScript's truthiness of it, is not represented.
- `UserList.UserListPage.constructor`: the model covers one mounted list page, starting from any given users. In the source `users` lives only while the page is mounted. Adding a user navigates to the add page and back (List.tsx:71, Add.tsx:32), which remounts the list from its two sample users (List.tsx:20-23), so earlier additions are lost. That reset on remount is not modelled.
- Form reset and back buttons of the add-user page (`onReset`, `handleBack`): UI navigation only.
- Concurrency of React state updates: each handler is modelled as one atomic state change.
