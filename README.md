# FreightWise quoting core, modelled in Dafny

FreightWise is a freight-quoting web application. Visitors search public
freight prices and send a request for quotation (RFQ). Agents and admins sign
in to a dashboard. There they see internal prices and announcements and
manage prices, announcements, users and RFQs. This project models the
application's core logic and proves properties of it:

- **`Middleware`** (`middleware.ts`): the locale redirect. A pathname without
  `/en` or `/zh` in front gets the negotiated locale injected. Double slashes
  are then collapsed.
- **`AuthService`** (`src/lib/authService.ts`): the default permissions of
  each role, account creation, the dynamic `UPDATE users` builder, deletion
  and login.
- **`DataService`** (`src/lib/dataService.ts`): the SQL-backed price,
  announcement and RFQ operations. This covers the search query with its
  `ILIKE` conditions and the dynamic `UPDATE` builders of prices and
  announcements.
- **`MockStore`** (`src/lib/mockData.ts`): the in-memory store with the same
  operations on arrays. It has length-based ids, `findIndex`/`splice` and
  object spread.
- **`KeyCase`** (`src/lib/db.ts`): the `snake_case` ↔ `camelCase` row-key
  conversion.
- **`SubmitRfqFlow`** (`src/ai/flows/submit-rfq-flow.ts`): the RFQ
  submission flow. It covers the input schema, the submission id, saving,
  and the confirmation message with its fallback.
- **`AuthContext`**, **`LanguageSwitcher`** and **`DashboardSidebar`**: the
  client session provider and its redirects, the language switch of the
  URL, and the role-filtered navigation.
- **`RfqTable`**, **`PriceResults`** and **`LatestPrices`**: the RFQ
  management table, the search results and the latest-internal-prices
  panel.
- **`CreatePriceForm`**, **`RfqForm`**, **`CreateUserForm`** and
  **`AnnouncementForm`**: the form schemas and what each form sends to the
  services.

Shared modules:

- `Text`: JavaScript string operations on `seq<char>`.
- `Domain`: the entities.
- `Sorting`: a stable descending insertion sort, with its stability proved.
- `Database`: the tables as maps in a `Tables` class, the shape and
  semantics of a parameterised `UPDATE … SET col = $k … WHERE id = $n`, and
  `SELECT … ORDER BY … DESC`.

Each update builder is a method that keeps a `paramIndex` counter. It is
proved to emit exactly the statement of a reference assignment list
(`StatementFor`). Lemmas then show that executing that statement on the
stored row yields the merged row (`MergeStored`, `MergeUser`,
`MergeAnnouncementStored`).

Partial updates are `Option<Option<T>>`:

- `None`: the key is absent.
- `Some(None)`: the key is present but `undefined`.
- `Some(Some(v))`: the key holds a value.

This distinction matters. The SQL builder skips `undefined` values, but the
mock store's object spread copies them over.

## Model

| member | source | states |
|---|---|---|
| Middleware.GetLocale | middleware.ts:10-23 | the chosen locale is always supported; when the matcher throws it is the default `zh` |
| Middleware.CollapseSlashes | middleware.ts:49 | the global `//`→`/` replacement never lengthens the path |
| Middleware.Decide | middleware.ts:25-56 | the request passes through iff its pathname already carries a supported locale; a redirect keeps query and host |
| Middleware.CollapseSlashFreePrefix | middleware.ts:49 | the replacement leaves a slash-free prefix alone and works on the rest |
| Middleware.CollapseKeepsLeadingSlash | middleware.ts:43-49 | a path starting with `/` still starts with `/` after the replacement |
| Middleware.CollapseIdentity | middleware.ts:47-49 | a path without `//` is unchanged |
| Middleware.RedirectPathShape | middleware.ts:41-49 | a missing-locale path other than `/` becomes `/loc` followed by the collapsed path |
| Middleware.RootRedirect | middleware.ts:39-40 | `/` redirects to exactly `/loc` |
| Middleware.RedirectIsIdempotent | middleware.ts:29-51 | the redirect target carries the chosen locale, so a second request for it passes through |
| Middleware.PrefixNeedsSlash | middleware.ts:29-31 | `/zhx`, `/english` and `/` count as missing a locale; `/zh` and `/en/about` do not |
| Middleware.InjectedShape | middleware.ts:44-49 | collapsing `/` + a slash-free segment + the rest only rewrites the rest |
| Middleware.DoubleSlashExample | middleware.ts:44-49 | `//about` becomes `/zh/about` |
| Middleware.CollapseEvenRun | middleware.ts:49 | the left-to-right replacement turns a run of `2j` slashes into `j` slashes |
| Middleware.CollapseOddRun | middleware.ts:49 | it turns a run of `2j + 1` slashes into `j + 1`, so an odd run keeps one slash over |
| Middleware.TripleSlashLeavesTwo | middleware.ts:49 | as an instance of that run rule, `///about` leaves `/zh//about` |
| AuthContext.CurrentLocaleFromPath | src/contexts/AuthContext.tsx:22-32 | the result is `en` or `zh`; with no window it is `en` |
| AuthContext.LocaleOfPrefixedPath | src/contexts/AuthContext.tsx:22-32 | `/en/...`, `/zh/...`, `/en` and `/zh` yield their own locale |
| AuthContext.UnknownSegmentFallsBack | src/contexts/AuthContext.tsx:27-31 | any other first segment falls back to `en` |
| AuthContext.AuthProvider.constructor | src/contexts/AuthContext.tsx:16-18 | the provider starts with no user, loading, and no navigation |
| AuthContext.AuthProvider.InitializeAuth | src/contexts/AuthContext.tsx:35-43 | the stored session becomes the user and loading ends |
| AuthContext.AuthProvider.RedirectEffect | src/contexts/AuthContext.tsx:45-51 | it navigates to `/lang/login` exactly when loading is over, no user is signed in, and the page is neither `/` nor a login page |
| AuthContext.AuthProvider.Login | src/contexts/AuthContext.tsx:53-73 | a match signs in and navigates to the dashboard; no match or an error leaves no user and no navigation; loading ends in every case |
| AuthContext.AuthProvider.Logout | src/contexts/AuthContext.tsx:75-83 | the user is cleared and the login page is pushed |
| AuthContext.LoggedOutVisitorIsRedirected | src/contexts/AuthContext.tsx:45-51 | a signed-out visitor on a protected page is redirected, but not while loading |
| LanguageSwitcher.ChangeLanguage | src/components/layout/LanguageSwitcher.tsx:23-31 | choosing the current language does nothing; otherwise the new path starts with `/new` |
| LanguageSwitcher.ReplacesCurrentPrefix | src/components/layout/LanguageSwitcher.tsx:26-28 | a path starting with `/cur` has that prefix replaced by `/new` |
| LanguageSwitcher.PrependsOtherwise | src/components/layout/LanguageSwitcher.tsx:26-28 | any other path gets `/new` prepended |
| LanguageSwitcher.EnglishIsRewritten | src/components/layout/LanguageSwitcher.tsx:26-28 | the prefix test has no trailing slash, so `/english` becomes `/zhglish` |
| LanguageSwitcher.SwitchBackRestores | src/components/layout/LanguageSwitcher.tsx:23-31 | switching a prefixed path to another language and back restores it |
| LanguageSwitcher.DisabledEntryIsNoOp | src/components/layout/LanguageSwitcher.tsx:41-44 | the disabled menu entry (the current language) changes nothing |
| DashboardSidebar.FilterItems | src/components/layout/DashboardSidebar.tsx:89-93 | every kept item is visible to the role |
| DashboardSidebar.FilterMembership | src/components/layout/DashboardSidebar.tsx:89-93 | an item is shown iff it is in the list and is visible to the role |
| DashboardSidebar.FilterIsSubsequence | src/components/layout/DashboardSidebar.tsx:89-93 | filtering keeps the declared order |
| DashboardSidebar.AdminSeesSupersetOfAgent | src/components/layout/DashboardSidebar.tsx:89-93 | the agent's menu is a subsequence of the admin's |
| DashboardSidebar.VisibleItemsByRole | src/components/layout/DashboardSidebar.tsx:66-73 | agents see the first two entries and admins see all six |
| DashboardSidebar.AgentItemsFirst | src/components/layout/DashboardSidebar.tsx:66-73 | when the agent-tagged entries precede the admin-tagged ones, an agent sees exactly that leading group and an admin sees every entry |
| DashboardSidebar.ToLink | src/components/layout/DashboardSidebar.tsx:94-98 | the href is `/lang/dashboard` plus the item's suffix; the caption falls back to the key iff the dictionary has no (truthy) entry |
| DashboardSidebar.NavLinks | src/components/layout/DashboardSidebar.tsx:89-98 | one link per visible item, in order |
| DashboardSidebar.OverviewActiveOnlyOnExactMatch | src/components/layout/DashboardSidebar.tsx:111 | the overview link is active only on the dashboard root |
| DashboardSidebar.SectionLinkActiveBelow | src/components/layout/DashboardSidebar.tsx:111 | a section link stays active on every page below it |
| DashboardSidebar.View | src/components/layout/DashboardSidebar.tsx:75-98 | a skeleton of six rows is shown iff auth or dictionary is loading or missing; otherwise the role's links |
| AuthService.DefaultPermissions | src/lib/authService.ts:12-27 | both roles' defaults define all four scopes |
| AuthService.AdminMayDoEverything | src/lib/authService.ts:13-20 | an admin holds every action on every scope by default |
| AuthService.AgentDefaultsRestricted | src/lib/authService.ts:21-26 | an agent has no user rights, never edit or delete, only what an admin has; exactly view on non-user scopes and create on RFQs |
| AuthService.InitialPermissions | src/lib/authService.ts:95 | given permissions are stored as given; otherwise the role's defaults |
| AuthService.CreateUser | src/lib/authService.ts:91-111 | success iff the insert succeeds; the row holds the user with its initial permissions and the password; failure changes nothing |
| AuthService.RoleName | src/lib/authService.ts:124-132 | the stored role string is `admin` iff the role is admin |
| AuthService.EffectivePermissions | src/lib/authService.ts:124-136 | explicit permissions win; otherwise a role change resets them to the role's defaults; otherwise they are kept |
| AuthService.UserColumnsDistinct | src/lib/authService.ts:120-141 | no column is set twice, even when a role and permissions are both given |
| AuthService.UserAssignmentsExact | src/lib/authService.ts:120-141 | the permissions column is set iff role or permissions are given, with the effective value; nothing is set iff the patch is empty |
| AuthService.MergeUser | src/lib/authService.ts:113-175 | an update keeps id and email and leaves the effective permissions |
| AuthService.UserAssignmentsMerge | src/lib/authService.ts:158-162 | applying the assignments to the stored row gives the merged row |
| AuthService.NameStep | src/lib/authService.ts:120-123 | the name assignment sets the name when one is given and changes nothing else |
| AuthService.RoleStep | src/lib/authService.ts:124-132 | the role assignments set the role and, without explicit permissions, the role's defaults; password, name, id and email stay |
| AuthService.PermissionsStep | src/lib/authService.ts:133-136 | the permissions assignment sets the given permissions and changes nothing else |
| AuthService.PasswordStep | src/lib/authService.ts:137-141 | the password assignment sets the stored hash column and changes nothing else |
| AuthService.BuildUserSets | src/lib/authService.ts:115-141 | the clause and value lists and the counter equal the numbered reference assignments |
| AuthService.UpdateUser | src/lib/authService.ts:113-175 | no statement iff the patch is empty; otherwise exactly `StatementFor`; the row is updated iff it exists |
| AuthService.DeleteUser | src/lib/authService.ts:177-185 | a failed query reports an error and changes nothing; otherwise true iff the id existed, and the row is gone afterwards |
| AuthService.Login | src/lib/authService.ts:29-53 | a user is returned iff the query succeeds and some row matches email and password; it is that row's user |
| AuthService.CreatedUserAuthenticates | src/lib/authService.ts:91-111 | a created account can log in with its creation password |
| AuthService.PasswordChangeTakesEffect | src/lib/authService.ts:137-141 | a password-only patch changes only the password column |
| DataService.TypeName | src/lib/dataService.ts:14 | the bound type string is `public` iff the kind is public |
| DataService.SearchQueryFor | src/lib/dataService.ts:12-26 | the type condition comes first, with one more condition per truthy criterion, numbered `$1…`, ordered by amount ascending |
| DataService.BuildSearch | src/lib/dataService.ts:12-26 | the string-building method produces the reference query |
| DataService.IlikeOfWrapped | src/lib/dataService.ts:18-23 | `ILIKE '%v%'` holds iff the value contains `v` ignoring case |
| DataService.SearchQuerySelects | src/lib/dataService.ts:12-26 | the query selects a row iff the row matches the kind and the criteria |
| DataService.FetchPrices | src/lib/dataService.ts:12-59 | every matching stored price exactly once and nothing else, ascending by amount; an error gives `[]` |
| DataService.PriceAssignmentsExact | src/lib/dataService.ts:93-101 | each defined field is set once with its value, and nothing else is set |
| DataService.MergeStored | src/lib/dataService.ts:86-117 | the id is kept; an `undefined` date keeps the stored date |
| DataService.PriceAssignmentsMerge | src/lib/dataService.ts:108-112 | executing the assignments on the stored price gives the merged price |
| DataService.BuildPriceSets | src/lib/dataService.ts:91-101 | the builder's clause and value lists equal the numbered reference assignments |
| DataService.UpdatePrice | src/lib/dataService.ts:86-117 | no statement iff nothing is defined; otherwise exactly `StatementFor`; null iff the id is absent; the row becomes the merge |
| DataService.UndefinedDatesKept | src/lib/dataService.ts:93-101 | explicitly undefined dates generate no clause and keep the stored dates |
| DataService.CreatePrice | src/lib/dataService.ts:71-84 | success iff the query does not fail and the id is free; the stored price is the data with the new id; failure changes nothing |
| DataService.DeletePrice | src/lib/dataService.ts:119-127 | a failed query reports an error and changes nothing; otherwise true iff the id existed, and it is removed |
| DataService.FetchAnnouncements | src/lib/dataService.ts:130-138 | every stored announcement exactly once, newest first; `[]` on error |
| DataService.CreateAnnouncement | src/lib/dataService.ts:140-155 | success iff the query does not fail and the id is free; it is stored with the server time; failure changes nothing |
| DataService.MergeAnnouncementStored | src/lib/dataService.ts:157-180 | an update keeps id, author and creation time |
| DataService.AnnouncementAssignmentsMerge | src/lib/dataService.ts:171-175 | executing the assignments gives the merged announcement |
| DataService.AnnouncementUpdateIgnoresAuthor | src/lib/dataService.ts:163-166 | only title and content can be set, and author, id and date in the patch are ignored |
| DataService.BuildAnnouncementSets | src/lib/dataService.ts:160-166 | the builder equals the numbered reference assignments |
| DataService.UpdateAnnouncement | src/lib/dataService.ts:157-180 | no statement iff neither title nor content is given; the row becomes the merge iff it exists |
| DataService.DeleteAnnouncement | src/lib/dataService.ts:182-190 | a failed query reports an error and changes nothing; otherwise true iff the id existed, and it is removed |
| DataService.FetchRfqs | src/lib/dataService.ts:193-201 | every stored RFQ exactly once, newest first; `[]` on error |
| DataService.StoredRfq | src/lib/dataService.ts:203-220 | a saved RFQ has status `new`, the submission id, a freight type (empty when absent) and the input fields |
| DataService.SaveRfqSubmission | src/lib/dataService.ts:203-220 | success iff the insert succeeds; failure changes nothing |
| DataService.UpdateRfqStatus | src/lib/dataService.ts:222-233 | only the status of that RFQ changes; null iff it does not exist |
| Database.StatementFor | src/lib/dataService.ts:103-112 | placeholders `$1…$n` are consecutive, the id is bound last, and each clause binds its own value |
| Database.ExecuteStatement | src/lib/dataService.ts:108-112 | executing a built statement applies the assignments in order |
| Database.Push | src/lib/authService.ts:120-141 | one push step extends clauses, values and counter by exactly one assignment |
| Database.Select | src/lib/dataService.ts:130-138 | a `SELECT … ORDER BY … DESC` returns each kept row exactly once and nothing else, sorted descending |
| Database.RowsAt | src/lib/dataService.ts:130-138 | the rows stored under a list of keys, one per key and in key order |
| Database.DistinctCard | src/lib/dataService.ts:130-138 | a list of distinct keys has as many elements as the set of its keys |
| Database.RowsOnceLength | src/lib/dataService.ts:130-138 | a result that holds each kept row once has exactly one element per kept key |
| Database.RowsOnceMembers | src/lib/dataService.ts:130-138 | such a result holds a value iff some kept key stores it |
| Database.ScanStep | src/lib/dataService.ts:130-138 | scanning one more key keeps the result equal to the rows of the distinct kept keys seen so far |
| KeyCase.CamelKey | src/lib/db.ts:51 | camel-casing never lengthens a key |
| KeyCase.SnakeKey | src/lib/db.ts:61 | snake-casing never shortens a key |
| KeyCase.SnakeKeyNoUpper | src/lib/db.ts:61 | a snake-cased key has no upper-case letter left |
| KeyCase.CamelKeyCopy | src/lib/db.ts:51 | a character other than `_` is copied as it is |
| KeyCase.CamelKeyHump | src/lib/db.ts:51 | `_` followed by a lower-case letter becomes that letter in upper case |
| KeyCase.CamelOfSnake | src/lib/db.ts:48-65 | camel-casing undoes snake-casing for keys without `_` |
| KeyCase.SnakeOfCamel | src/lib/db.ts:48-65 | snake-casing undoes camel-casing for lower-case keys whose `_` precede a letter |
| KeyCase.CamelKeepsOtherUnderscores | src/lib/db.ts:51 | an `_` not followed by a lower-case letter is kept |
| KeyCase.SnakeKeyConcat | src/lib/db.ts:61 | snake-casing a concatenation gives the concatenation of the snake-cased parts |
| KeyCase.SnakeKeepsLowerKey | src/lib/db.ts:61 | a key without upper-case letters is unchanged |
| KeyCase.ValidFromRoundTrip | src/lib/db.ts:48-65 | `validFrom` comes back unchanged from snake case |
| KeyCase.ValidFromSnakeRoundTrip | src/lib/db.ts:48-65 | `valid_from` comes back unchanged from camel case |
| KeyCase.DigitAfterUnderscoreExample | src/lib/db.ts:51 | `price_1` is unchanged |
| KeyCase.Convert | src/lib/db.ts:48-65 | the new object's keys are exactly the converted keys |
| KeyCase.ConvertKeepsValues | src/lib/db.ts:48-65 | without collisions every value arrives under its converted key |
| KeyCase.SnakeNoCollision | src/lib/db.ts:58-65 | distinct underscore-free keys stay distinct |
| KeyCase.CamelNoCollision | src/lib/db.ts:48-55 | distinct snake-case keys stay distinct |
| KeyCase.CollisionLastWins | src/lib/db.ts:50-52 | `a_b` and `aB` collide and the later entry wins |
| KeyCase.ToCamelCase | src/lib/db.ts:48-55 | the loop builds the converted object |
| KeyCase.ToSnakeCase | src/lib/db.ts:58-65 | the loop builds the converted object |
| MockStore.SearchMembership | src/lib/mockData.ts:98-114 | a price is found iff it is stored and matches kind and criteria |
| MockStore.SearchConcat | src/lib/mockData.ts:100-104 | the filter works element by element |
| MockStore.FirstIndex | src/lib/mockData.ts:130 | `findIndex` finds the first matching entry, or none |
| MockStore.SpreadPrice | src/lib/mockData.ts:132 | an explicitly undefined date clears the field; an empty patch changes nothing |
| MockStore.SpreadAnnouncement | src/lib/mockData.ts:169 | an explicitly undefined author clears it; an empty patch changes nothing |
| MockStore.NextIdFresh | src/lib/mockData.ts:123 | while ids are `1…n`, `String(n+1)` is unused |
| MockStore.AppendKeepsIdsWithin | src/lib/mockData.ts:121-126 | appending keeps ids within `1…length` |
| MockStore.PrependKeepsIdsWithin | src/lib/mockData.ts:154-163 | prepending keeps ids within `1…length` |
| MockStore.DeleteThenCreateCollides | src/lib/mockData.ts:121-146 | after a delete, the next created price can reuse the last entry's id |
| MockStore.Store.constructor | src/lib/mockData.ts:5-94 | the store starts with the seed data |
| MockStore.Store.FetchPrices | src/lib/mockData.ts:98-114 | the result is exactly the matching prices, in stored order |
| MockStore.Store.CreatePrice | src/lib/mockData.ts:121-126 | the new price gets id `length+1` and is appended |
| MockStore.Store.UpdatePrice | src/lib/mockData.ts:128-136 | the first entry with the id is replaced by its spread; null and nothing changed otherwise |
| MockStore.Store.DeletePrice | src/lib/mockData.ts:138-146 | the first entry with the id is spliced out; false and nothing changed otherwise |
| MockStore.Store.FetchAnnouncements | src/lib/mockData.ts:149-152 | the array is sorted in place, newest first, as a permutation |
| MockStore.Store.CreateAnnouncement | src/lib/mockData.ts:154-163 | the new announcement gets id `length+1` and the current time, and is prepended |
| MockStore.Store.UpdateAnnouncement | src/lib/mockData.ts:165-173 | the first entry with the id is replaced by its spread |
| MockStore.Store.DeleteAnnouncement | src/lib/mockData.ts:175-183 | the first entry with the id is spliced out |
| Sorting.SortDesc | src/lib/mockData.ts:151 | the result is sorted descending by the key and is a permutation |
| Sorting.InsertDesc | src/lib/mockData.ts:151 | inserting into a descending list keeps it descending and adds exactly the new element |
| Sorting.InsertDescWithKey | src/lib/mockData.ts:151 | the inserted element goes ahead of every element of equal key, and those keep their order |
| Sorting.SortDescStable | src/lib/mockData.ts:151 | the sort is stable: the elements of any one key come out in their input order |
| SubmitRfqFlow.Substring | src/ai/flows/submit-rfq-flow.ts:83 | `substring(2, 7)` has at most five characters, all from the source |
| SubmitRfqFlow.SubmissionId | src/ai/flows/submit-rfq-flow.ts:83 | the id starts with `RFQ-<timestamp>-` and has at most five more characters |
| SubmitRfqFlow.SubmissionIdSegments | src/ai/flows/submit-rfq-flow.ts:83 | splitting the id on `-` gives `RFQ`, the timestamp and the upper-cased random part |
| SubmitRfqFlow.WithId | src/ai/flows/submit-rfq-flow.ts:103-110 | the message contains the id; it is unchanged when it already did; it starts with the original |
| SubmitRfqFlow.Fallback | src/ai/flows/submit-rfq-flow.ts:112-115 | the fallback names the customer, id, origin and destination |
| SubmitRfqFlow.FinalMessage | src/ai/flows/submit-rfq-flow.ts:99-115 | the confirmation always contains the id; it starts with the model's text when there is one; otherwise it is the fallback |
| SubmitRfqFlow.Confirmation | src/ai/flows/submit-rfq-flow.ts:99-115 | the branching method computes the final message |
| SubmitRfqFlow.SubmitRfq | src/ai/flows/submit-rfq-flow.ts:73-121 | success iff the input passes the schema and the save succeeds; the RFQ is saved under the generated id; failure saves nothing |
| RfqTable.DisplayedId | src/components/admin/RfqManagementTable.tsx:137 | the shown id is empty only for an empty id, and is the whole id or a dash-free segment |
| RfqTable.DisplayedIdWithoutDash | src/components/admin/RfqManagementTable.tsx:137 | an id without `-` is shown whole |
| RfqTable.DisplayedIdOfFlowSubmission | src/components/admin/RfqManagementTable.tsx:137 | for a flow submission the table shows the timestamp part |
| RfqTable.StatusBadge | src/components/admin/RfqManagementTable.tsx:144 | the badge is destructive iff the status is `new` |
| RfqTable.Actions | src/components/admin/RfqManagementTable.tsx:154-159 | view details is always offered; mark-as-contacted iff the RFQ is new |
| RfqTable.RfqTableState.constructor | src/components/admin/RfqManagementTable.tsx:29-31 | the table starts empty and loading |
| RfqTable.RfqTableState.View | src/components/admin/RfqManagementTable.tsx:58-133 | loading, then the empty message or one row per RFQ |
| RfqTable.RfqTableState.LoadRfqs | src/components/admin/RfqManagementTable.tsx:33-38 | after loading the list holds every stored RFQ exactly once, newest first, or is empty on error |
| RfqTable.RfqTableState.HandleMarkAsContacted | src/components/admin/RfqManagementTable.tsx:48-56 | on success only that RFQ becomes contacted and the list is reloaded, newest first, each RFQ once, or empty if the reload fails; on failure nothing changes |
| RfqTable.MarkOnlyTouchesOne | src/lib/dataService.ts:222-233 | marking one RFQ leaves every other RFQ as it was |
| PriceResults.CarrierIcon | src/components/common/PriceResultsDisplay.tsx:53-59 | no carrier gives the default ship |
| PriceResults.CarrierIconIgnoresCase | src/components/common/PriceResultsDisplay.tsx:55-57 | the icon does not depend on letter case |
| PriceResults.SeaKeywordWins | src/components/common/PriceResultsDisplay.tsx:55 | any carrier mentioning sea or ocean gets the ship |
| PriceResults.AirKeyword | src/components/common/PriceResultsDisplay.tsx:56 | air without sea/ocean gets the plane |
| PriceResults.LandKeyword | src/components/common/PriceResultsDisplay.tsx:57 | land or truck without sea/ocean/air gets the truck |
| PriceResults.SeattleAirIsShip | src/components/common/PriceResultsDisplay.tsx:55 | substring matching makes `Seattle Air Freight` a ship |
| PriceResults.ResultValidity | src/components/common/PriceResultsDisplay.tsx:91-96 | a range is shown iff both dates are present |
| PriceResults.CarrierText | src/components/common/PriceResultsDisplay.tsx:83 | `N/A` is shown iff the carrier is missing, empty or literally `N/A`; otherwise the carrier |
| PriceResults.RowOf | src/components/common/PriceResultsDisplay.tsx:77-104 | a row shows the price's fields; the badge is `Public`/secondary iff public |
| PriceResults.View | src/components/common/PriceResultsDisplay.tsx:14-104 | three skeleton cards while loading; nothing before a search; the empty card iff there are no prices; otherwise one row per price |
| PriceResults.TableOfConcat | src/components/common/PriceResultsDisplay.tsx:77 | rows are rendered element by element |
| LatestPrices.FilterInternal | src/components/dashboard/LatestInternalPricesDisplay.tsx:30 | only internal prices, drawn from the input |
| LatestPrices.FilterInternalKeepsAll | src/components/dashboard/LatestInternalPricesDisplay.tsx:30 | every internal price survives the filter |
| LatestPrices.Latest | src/components/dashboard/LatestInternalPricesDisplay.tsx:28-33 | at most ten internal prices, as many as exist up to ten, sorted by numeric id descending |
| LatestPrices.AllShownWhenFew | src/components/dashboard/LatestInternalPricesDisplay.tsx:32 | with at most ten internal prices, all are shown |
| LatestPrices.TopTen | src/components/dashboard/LatestInternalPricesDisplay.tsx:31-32 | every internal price left out has an id no larger than any shown one |
| LatestPrices.ShownInIdOrder | src/components/dashboard/LatestInternalPricesDisplay.tsx:31 | numeric ids are shown in descending `parseInt` order |
| LatestPrices.LatestValidity | src/components/dashboard/LatestInternalPricesDisplay.tsx:114-125 | a range iff both dates are present, the start alone iff only it is, `N/A` iff there is no start |
| LatestPrices.ValidityAgreesWithResults | src/components/dashboard/LatestInternalPricesDisplay.tsx:114-125 | the two displays agree on ranges; the panel also shows a lone start date |
| LatestPrices.RowOf | src/components/dashboard/LatestInternalPricesDisplay.tsx:100-128 | rows use the same icon and carrier text as the search results |
| LatestPrices.AfterLoad | src/components/dashboard/LatestInternalPricesDisplay.tsx:27-36 | a failed load keeps the previous list |
| LatestPrices.View | src/components/dashboard/LatestInternalPricesDisplay.tsx:51-128 | five skeleton rows iff loading; the empty card iff nothing is shown; otherwise one row per price |
| CreatePriceForm.Errors | src/components/admin/CreatePriceForm.tsx:18-36 | there is an error on a field iff its rule is broken, for example valid-to before valid-from |
| CreatePriceForm.ValidFormMeaning | src/components/admin/CreatePriceForm.tsx:18-36 | the form is valid iff every field rule holds |
| CreatePriceForm.UpdatePayload | src/components/admin/CreatePriceForm.tsx:69-74 | an edit always sends both dates, possibly undefined, and never an id |
| CreatePriceForm.Dispatch | src/components/admin/CreatePriceForm.tsx:75-81 | an update of the edited price iff one is being edited; otherwise a create |
| CreatePriceForm.ValidFormStoresOrderedDates | src/components/admin/CreatePriceForm.tsx:28-36 | a valid form stores dates in order through create, the SQL update and the mock update |
| CreatePriceForm.EmptyDateOnEdit | src/components/admin/CreatePriceForm.tsx:69-74 | clearing a date on edit keeps the old date in the database but clears it in the mock store |
| CreatePriceForm.EditAppliesFields | src/components/admin/CreatePriceForm.tsx:67-86 | an edit stores every field the form fills in and keeps the id |
| CreateUserForm.FormDefaultPermissions | src/components/admin/CreateUserForm.tsx:49-64 | the form's defaults equal the service's defaults |
| CreateUserForm.CreateValidImpliesEditValid | src/components/admin/CreateUserForm.tsx:27-38 | the create schema is stricter than the edit schema |
| CreateUserForm.UserFormState.constructor | src/components/admin/CreateUserForm.tsx:71-88 | a new form starts blank as an agent with the agent defaults; an edit form starts from the user; a new user's permissions are its role's defaults |
| CreateUserForm.UserFormState.ChangeRole | src/components/admin/CreateUserForm.tsx:94-98 | a role change resets permissions to its defaults only on a new user, so a new user's permissions stay its role's defaults |
| CreateUserForm.UserFormState.EditPatch | src/components/admin/CreateUserForm.tsx:103-106 | an edit sends name, role and permissions and never a password |
| CreateUserForm.UserFormState.Submit | src/components/admin/CreateUserForm.tsx:101-117 | it is sent iff the schema for the mode passes; edits merge the form into the stored user; a create inserts the user with its role's default permissions, or changes nothing when the create fails |
| CreateUserForm.EditKeepsFormPermissions | src/components/admin/CreateUserForm.tsx:103-106 | because the form always sends permissions, an edit stores the form's role and permissions; email and password stay as stored |
| AnnouncementForm.AuthorName | src/components/admin/AnnouncementForm.tsx:72-76 | the author is the name if truthy, else the email, else `System`; never empty |
| AnnouncementForm.Dispatch | src/components/admin/AnnouncementForm.tsx:26-85 | no call unless the title and content are long enough and there is a user and a dictionary; then an update iff editing; a create carries the author |
| AnnouncementForm.EditKeepsAuthor | src/components/admin/AnnouncementForm.tsx:78-85 | on edit the database keeps the original author while the mock spread records the editor |
| RfqForm.NormalizedWeight | src/components/public/RfqForm.tsx:62 | a blank or zero weight is sent as undefined |
| RfqForm.FormValidImpliesFlowValid | src/components/public/RfqForm.tsx:28-37 | whatever the form accepts passes the flow's schema |
| RfqForm.FlowLaxerThanForm | src/components/public/RfqForm.tsx:28-37 | the converse fails: a one-letter name |
| RfqForm.DefaultsInvalid | src/components/public/RfqForm.tsx:44-53 | the initial values do not pass the schema |
| RfqForm.RfqFormState.constructor | src/components/public/RfqForm.tsx:44-53 | the form starts at its defaults |
| RfqForm.RfqFormState.Submit | src/components/public/RfqForm.tsx:58-79 | a toast with the confirmation iff valid and saved, then a reset and the RFQ stored under the new id; otherwise the values and the stored RFQs stay |
| Text.NatToString | src/lib/mockData.ts:123 | `String(n)` is a non-empty run of digits |
| Text.ParseNatToString | src/components/dashboard/LatestInternalPricesDisplay.tsx:31 | `parseInt(String(n)) == n` |
| Text.NatToStringInjective | src/lib/mockData.ts:123 | distinct counters give distinct ids |
| Text.Split | src/components/admin/RfqManagementTable.tsx:137 | `split` gives at least one part, none containing the separator |
| Text.IndexOf | src/components/layout/LanguageSwitcher.tsx:28 | the first occurrence of the pattern, or none at all |
| Text.ReplaceFirstAtStart | src/components/layout/LanguageSwitcher.tsx:28 | replacing a prefix swaps just that prefix |

## Left out

- Network, database and AI-model I/O: query errors, the generated message,
  the clock, `Math.random`, ids the database generates, and the accept-language
  match are parameters of the methods.
- `getAllUsers`, `getCurrentUser`, the service-level `logout` (browser
  storage) and `fetchAllPrices` (an unfiltered read) have no separate
  members. Browser storage is not modelled.
- Rendering, styling, translation dictionaries, toasts other than the RFQ
  confirmation, currency and date formatting.
- Floating point: amounts, weights and timestamps are integers.
- `ILIKE` wildcards inside the user's criteria (`%`, `_`) are treated as
  plain characters.
- Ties in `ORDER BY` are returned in an unspecified order.
- `parseInt` is modelled for leading decimal digits only.
- Case conversion covers ASCII letters only.
- Email syntax is a parameter `isEmail`. The zod enum checks are enforced by
  the datatypes.
- The `for…in` key order of `db.ts` is the order of the entry list.
- Errors that the update statements of users, prices, announcements and RFQs may raise are
  not modelled. The SQL methods succeed or report a missing row.
- `AuthContext.AuthProvider.Login`: the service call is a parameter
  (`outcome`). The browser-storage write inside the service is left out.
- `RfqTable.RfqTableState.HandleMarkAsContacted`: the reload runs to
  completion before the method returns. The source does not await it.
- `CreateUserForm.UserFormState.constructor`: the fallback for a stored user
  with null permissions is left out. A stored user always has a
  permissions map here.
- `AuthService.Login` and `AuthService.UpdateUser` return the public user
  fields. At run time the row object also carries the password column.
- `LatestPrices.ShownInIdOrder` is stated for numeric ids only. A
  non-numeric id makes the comparator return `NaN`, whose order is up to the
  engine.
- The mock store's seed data are the constructor's arguments.
- The AI output has three forms: a structured message, a bare string, or
  nothing.
