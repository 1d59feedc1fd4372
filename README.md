# Equipment tracker client: a Dafny model

This project models the deterministic logic of the React client of an equipment-tracking system. Employees are assigned items, report problems with them and receive discounts on them. Administrators keep the inventory, the users, the maintenance requests and the discounts.

Every rule that decides an outcome lives on a remote server this repository does not contain: status transitions, the one-open-assignment rule, discount prices and the discount date window. The model therefore covers what the client itself decides:

- **Session handling.** `library/auth.js` and `context/AuthContext.jsx` are modelled as two Web Storage areas (classes over a `map`) and an `AuthProvider` class. The provider restores a session at start-up, signs in, registers and signs out.
- **Report-page summaries** (`pages/Reports.jsx`):
  - the status an assignment is shown with, derived from its dates against a "now" passed in;
  - the assignment counters and the per-status inventory counts, both written as loops;
  - the per-category breakdown.
- **Dashboard counters** (`pages/Dashboard.jsx`, `pages/UserDashboard.jsx`). This includes what the employee's dashboard shows for each answer of the server.
- **Inventory list filtering** (`pages/Inventory.jsx`): a case-insensitive substring search plus category and status filters. Also the category choices, the purchase-date normalisation, and the item form and its payload.
- **Admin page forms and payloads.** These are the form state machines and request payloads of `pages/Assignments.jsx`, `pages/AdminMaintenance.jsx` (its per-row edit map), `pages/AdminDiscounts.jsx` (three lists loaded side by side), `pages/Users.jsx` and `pages/ReportIssue.jsx`.
- **Chip colour mappings.** These are written once in `Chips`.

Pure logic is written as functions with lemmas. Page state that handlers overwrite step by step is written as a class per page. Its fields are the page's `useState` values, and each handler is a method with a `modifies` clause. A request is never performed. Instead, each handler:

- returns the request it would send;
- receives the server's answer (`Outcome`: data, or a failure carrying the optional HTTP status, `error` and `message`) as a parameter.

"Now", `JSON.parse`/`JSON.stringify` and date formatting are also parameters. A stored date is abstracted to `Unset`, `Unparsable(text)` or `At(instant)`, where only the order of instants matters.

The sources under `src/` describe the client code. Where a general description of the system places rules in a server-side core (status transitions, authorization), this model follows the client code. Those rules are absent from it.

## Model

| member | source | states |
|---|---|---|
| AuthStore.WebStorage.GetItem | src/library/auth.js:2 | `getItem` yields a value exactly when the key is stored, and then the stored value |
| AuthStore.WebStorage.constructor | src/library/auth.js:2 | a store holding exactly the given entries |
| AuthStore.WebStorage.SetItem | src/library/auth.js:6-7 | `setItem`: the key now holds the value, every other key is kept |
| AuthStore.WebStorage.RemoveItem | src/library/auth.js:11-14 | `removeItem`: the key is gone, every other key is kept; an absent key changes nothing |
| AuthStore.ReadFirst | src/context/AuthContext.jsx:20-21 | `session.getItem(k) \|\| local.getItem(k)`: the session value when non-empty, otherwise the local value, or nothing when neither store has the key |
| AuthStore.GetToken | src/library/auth.js:1-3 | `getToken` returns the session token when it is truthy and otherwise exactly the local store's token |
| AuthStore.TokenAbsent | src/library/auth.js:2 | no token is found exactly when the local store lacks one and the session has no non-empty one |
| AuthStore.SetSessionAuth | src/library/auth.js:5-8 | a truthy token and a present user are written to the session store only; a missing argument leaves its key as it was; no other key changes |
| AuthStore.ClearAuth | src/library/auth.js:10-15 | token and user are removed from both stores, after which no token is found; every other key is kept |
| Session.Normalize | src/context/AuthContext.jsx:48 | `_id` becomes `_id \|\| id`; every other field is kept |
| Session.NormalizeIdempotent | src/context/AuthContext.jsx:26 | normalising a normalised user changes nothing |
| Session.IsAdminUser | src/context/AuthContext.jsx:93-95 | only a present user can be admin, and a user without a role is not |
| Records.ServerError | src/pages/Inventory.jsx:230 | `err.response?.data?.error`: nothing without a response, and otherwise the response body's own `error` |
| Session.AuthProvider.constructor | src/context/AuthContext.jsx:15-17 | no user, loading, not authenticated |
| Session.AuthProvider.IsAdmin | src/context/AuthContext.jsx:93-95 | true exactly when a user is present and its role is 'Admin' |
| Session.AuthProvider.Init | src/context/AuthContext.jsx:19-36 | with a token and user data (session first): a parsed user is normalised and the session is authenticated; unparsable data removes the session's token and user only; without both nothing changes; loading ends false; the local store is never written |
| Session.AuthProvider.Authenticate | src/context/AuthContext.jsx:40-84 | success stores the token and the normalised user in the session store and authenticates; a failure yields the server's error or the fallback and changes nothing |
| Session.AuthProvider.Login | src/context/AuthContext.jsx:40-62 | as above with the fallback 'Login failed' |
| Session.AuthProvider.Register | src/context/AuthContext.jsx:64-84 | as above with the fallback 'Registration failed' |
| Session.AuthProvider.Logout | src/context/AuthContext.jsx:86-91 | the session's token and user are removed, the local store is untouched, nobody is signed in and nobody is admin |
| Reports.ReportTypeFor | src/pages/Reports.jsx:19 | 'inventory' exactly for an admin, 'my_assignments' exactly otherwise (also applied on role change, line 30) |
| Reports.AssignmentStatus | src/pages/Reports.jsx:77-81 | Returned iff an actual or plain return date is truthy (present and not ''); Overdue iff not returned and a valid expected date lies before now; otherwise Active |
| Reports.NotYetDueIsActive | src/pages/Reports.jsx:79-80 | an unreturned assignment with no valid expected date, or one not yet past, is Active |
| Reports.OverdueStaysOverdue | src/pages/Reports.jsx:79 | an Overdue assignment stays Overdue at any later time |
| Reports.DerivedStatusesPartition | src/pages/Reports.jsx:77-81 | the Returned, Active and Overdue counts add up to the number of assignments |
| Reports.CalculateAssignmentStats | src/pages/Reports.jsx:102-121 | total is the list length; returned and overdue are their derived-status counts; active counts Active and Overdue together; returned + active == total; overdue <= active |
| Reports.CalculateInventoryStats | src/pages/Reports.jsx:68-75 | total is the item count; the keys are exactly the statuses present; each count equals that status's occurrences (at least 1); the counts sum to total |
| Reports.StatusCountsSum | src/pages/Reports.jsx:68-75 | a map from each status present to its occurrences has positive counts, a key per distinct status, and counts summing to the number of items |
| Reports.BumpAsWritten | src/pages/Reports.jsx:393-396 | the step as written: a status named "total" raises the total by two |
| Reports.TotalStatusCountedTwice | src/pages/Reports.jsx:394-395 | one item whose status is "total" gives its category a total of 2 |
| Reports.Bump | src/pages/Reports.jsx:391-396 | total + 1, and + 1 on the column of the item's status when it is one of the four tracked |
| Reports.BumpAgreesExceptTotal | src/pages/Reports.jsx:394-395 | the intended step equals the written one for every status other than "total" |
| Reports.CountsForAppend | src/pages/Reports.jsx:389-397 | one more item changes its own category's counts by one step and no other category's |
| Reports.CategoryBreakdown | src/pages/Reports.jsx:388-398 | one row per category present, holding that category's item count and its Available/Assigned/Under Repair/Damaged counts, with the corrected step `Bump` (see Findings) |
| Reports.AbsentCategoryHasNoCounts | src/pages/Reports.jsx:390-392 | a category no item has would have all-zero counts, which is the fresh row the breakdown starts from |
| Reports.PresentCategoryIsCounted | src/pages/Reports.jsx:393 | every row counts at least one item |
| Reports.TrackedWithinTotal | src/pages/Reports.jsx:391-396 | the four tracked columns of a row never exceed its total |
| Reports.UntrackedOnlyBumpsTotal | src/pages/Reports.jsx:394 | an item of an untracked status (Disposed, say) raises only its row's total |
| Reports.BreakdownTotalsSum | src/pages/Reports.jsx:388-398 | the rows' `total` counts, one row per distinct category, add up to the number of items, with the corrected step `Bump` (see Findings) |
| Reports.SumTotalsIsSumOccurrences | src/pages/Reports.jsx:388-398 | the rows' totals over any list of categories add up to those categories' occurrences among the items |
| Chips.ReportItemStatusColor | src/pages/Reports.jsx:92-100 | a colour other than 'default' exactly for Available, Assigned, Under Repair and Damaged |
| Chips.ItemColouringsCompared | src/pages/Reports.jsx:92-100 | the report and inventory item colourings agree on the five statuses; an unknown status is 'default' on one page and 'secondary' on the other |
| Chips.ItemStatusColor | src/pages/Inventory.jsx:110-119 | five fixed colours for the five statuses; 'secondary' exactly for any other status |
| Chips.ItemStatusColorsDistinct | src/pages/Inventory.jsx:110-119 | the five statuses get five different colours |
| Chips.AssignmentStatusColor | src/pages/Assignments.jsx:242-249 | Active/Returned/Overdue get primary/success/error; 'default' exactly otherwise (same mapping at Reports.jsx:83-90 and UserDashboard.jsx:186-193) |
| Chips.ConditionColor | src/pages/Assignments.jsx:251-259 | Excellent/Good/Fair/Poor get success/primary/warning/error; 'default' exactly otherwise (same at UserDashboard.jsx:195-203) |
| Chips.RequestStatusColor | src/pages/AdminMaintenance.jsx:52 | 'success' iff Resolved, 'warning' iff In Progress, 'default' iff neither (same at ReportIssue.jsx:88) |
| Chips.RoleColor | src/pages/Users.jsx:163-170 | Admin/Manager/Employee get error/warning/primary; 'default' exactly otherwise |
| Dashboard.CountStatus | src/pages/Dashboard.jsx:71-73 | `filter(status === s).length`: at most the item count, and positive exactly when some item has status s |
| Dashboard.Stats | src/pages/Dashboard.jsx:69-74 | the total is the item count, the three counters count Available, Assigned and Under Repair, and none exceeds the total |
| Dashboard.StatsAppend | src/pages/Dashboard.jsx:69-74 | one more item adds one to the total and one to the counter of its own status, if it is counted |
| Dashboard.AddAvailableItem | src/pages/Dashboard.jsx:71 | an extra Available item changes only the total and the available count, each by one |
| Dashboard.UncountedStatusOnlyInTotal | src/pages/Dashboard.jsx:70-73 | an item that is not Available, Assigned or Under Repair shows only in the total |
| Dashboard.CountersWithinTotal | src/pages/Dashboard.jsx:70-73 | the three counters together never exceed the total |
| Dashboard.EmptyInventory | src/pages/Dashboard.jsx:69-74 | no items, four zeros |
| Dashboard.AgreesWithReport | src/pages/Dashboard.jsx:71-73 | the dashboard's per-status count equals the report page's count for the same status |
| UserDashboard.CountStored | src/pages/UserDashboard.jsx:142-143 | at most the number of assignments, and positive exactly when some assignment has that stored status |
| UserDashboard.Stats | src/pages/UserDashboard.jsx:140-144 | the total is the number of assignments; the counters count stored Active and Overdue; no assignments give three zeros |
| UserDashboard.StoredCountsWithinTotal | src/pages/UserDashboard.jsx:140-144 | active + overdue never exceed the total |
| UserDashboard.StatsIgnoreDates | src/pages/UserDashboard.jsx:142-143 | the counters depend on the stored statuses only, not on dates |
| UserDashboard.FetchMyAssignments | src/pages/UserDashboard.jsx:114-166 | no truthy token exactly gives the no-token view; success shows the list with its counters; 404 shows an empty list and zeros; the session-expired view comes exactly from a 401; any other failure shows the prefixed server error or exception message above the list and counters already shown, which stay as they were; the counters shown always match the list shown |
| UserDashboard.RunFetchMyAssignments | src/pages/UserDashboard.jsx:119-150 | the fetch as run in the app: the view is the one `FetchMyAssignments` gives for the token the page reads; no token or a 401 navigates to '/login'; a 401 also calls `logout()` (src/context/AuthContext.jsx:86-91): no user, not authenticated, and the token and user gone from the session store; otherwise the session is untouched; the local store is never changed, so the token the page reads is the same before and after |
| UserDashboard.SessionTokenIgnored | src/pages/UserDashboard.jsx:119-124 | as written, a session signed in in this tab but with no local token is turned away |
| UserDashboard.PageTokenAsWritten | src/pages/UserDashboard.jsx:119 | as written, a token is found exactly when the local store has one, and it is that one; the session store is never read |
| UserDashboard.PageToken | src/pages/UserDashboard.jsx:119 | the intended token read returns the session token whenever it is non-empty |
| UserDashboard.SessionTokenUsed | src/pages/UserDashboard.jsx:119-124 | with the intended token read, such a session always reaches the server and a successful answer is shown |
| UserDashboard.SignInThenOpenDashboard | src/pages/UserDashboard.jsx:119-124 | a sign-in on a fresh tab followed by the page: as written it finds no token; as intended the assignments load |
| UserDashboard.ConditionChipAsWritten | src/pages/UserDashboard.jsx:509 | as written, the label is the condition or 'Good', but the colour comes from the raw condition and is 'default' when it is missing |
| UserDashboard.MissingConditionMiscoloured | src/pages/UserDashboard.jsx:509 | as written, a missing condition is labelled 'Good' but coloured differently from a recorded 'Good' |
| UserDashboard.ConditionChip | src/pages/UserDashboard.jsx:509 | the label is the condition or 'Good' and the colour is that label's colour; a missing condition shows a primary 'Good' |
| UserDashboard.SameLabelSameColour | src/pages/UserDashboard.jsx:509 | two chips with the same label have the same colour |
| Inventory.SearchMatches | src/pages/Inventory.jsx:123-127 | an item matches iff the lower-cased term is empty or occurs in the lower-cased name, serial number, or present non-empty brand or model |
| Inventory.SearchIgnoresTermCase | src/pages/Inventory.jsx:123-127 | terms that lower-case alike select the same items |
| Inventory.SearchLowercasedTerm | src/pages/Inventory.jsx:123-127 | searching for a term or its lower-cased form is the same |
| Inventory.MissingBrandAndModel | src/pages/Inventory.jsx:126-127 | without brand and model only the name and serial number are searched |
| Inventory.Matches | src/pages/Inventory.jsx:123-132 | a match passes the search; without category or status filter it is the search alone; with an empty term it is the two filters alone |
| Inventory.FilteredItems | src/pages/Inventory.jsx:121-134 | the result holds the items passing search, category and status, and every such item; a non-empty category or status filter holds for every kept item |
| Inventory.FilteredItemsKeepOrder | src/pages/Inventory.jsx:122 | the filtered list is an order-preserving subsequence of the items |
| Inventory.NoFiltersShowAll | src/pages/Inventory.jsx:123-132 | an empty term and empty filters give the whole list |
| Inventory.UniqueCategories | src/pages/Inventory.jsx:236 | no duplicates, exactly the categories present, in the order of their first occurrence in the list |
| Inventory.NormalizeDate | src/pages/Inventory.jsx:192-204 | an empty value gives null; a value containing '-' or containing neither '-' nor '/' is kept; any non-empty value gives some date |
| Inventory.Payload | src/pages/Inventory.jsx:206-217 | `name` goes out as `itemName`; a falsy price ('' or 0) becomes null, any other is sent as it is; the date goes through the normalisation; the other fields are copied |
| Inventory.EditThenSaveUnchanged | src/pages/Inventory.jsx:150-165 | opening an item whose date formats and saving it unchanged sends its own name, category, serial number, status, location and non-zero price back; a missing or zero price goes out as null; missing brand, model or description go out as ''; the date goes through the form's day and the normalisation |
| Inventory.ZeroPriceSavedAsNull | src/pages/Inventory.jsx:161 | a stored price of 0 is erased to null by an unchanged save |
| Inventory.EditForm | src/pages/Inventory.jsx:153-163 | no form exactly when a truthy purchase date fails to format; otherwise the form's date is that date's day, or '' when none is stored |
| Inventory.InventoryPage.constructor | src/pages/Inventory.jsx:49-67 | closed dialog, nothing edited, blank form, loading |
| Inventory.InventoryPage.HandleOpen | src/pages/Inventory.jsx:136-143 | nothing edited, blank form with status Available, dialog open |
| Inventory.InventoryPage.HandleClose | src/pages/Inventory.jsx:145-148 | dialog closed and nothing edited; the form is kept |
| Inventory.InventoryPage.HandleEdit | src/pages/Inventory.jsx:150-165 | the item is marked as edited; the form is filled from it and the dialog opened, unless formatting its purchase date throws, which leaves form and dialog as they were |
| Inventory.InventoryPage.HandleSubmit | src/pages/Inventory.jsx:186-234 | update when editing, else create, with the form's payload; success refreshes, clears the error and closes; failure shows server error, message or 'Failed to update/add item.'; loading ends false |
| Assignments.AvailableItems | src/pages/Assignments.jsx:97 | exactly the fetched items whose status is Available |
| Assignments.AvailableItemsKeepOrder | src/pages/Assignments.jsx:97 | the offered items keep the server's order |
| Assignments.AvailableItemsExtremes | src/pages/Assignments.jsx:97 | all items offered when all are Available, none when none is |
| Assignments.DefaultForm | src/pages/Assignments.jsx:54-62 | no item or employee, today's date, empty expected date and notes, condition Good, status Active |
| Assignments.Payload | src/pages/Assignments.jsx:137-146 | the item's and employee's ids; an empty expected date as null; `assignedBy` the signed-in user's id; the other fields copied |
| Assignments.CanReturn | src/pages/Assignments.jsx:365 | a Returned (or empty) status never offers the return action |
| Assignments.CanReturnIffOpen | src/pages/Assignments.jsx:365 | the return action is offered exactly for the known statuses other than Returned, i.e. Active and Overdue |
| Assignments.DayOf | src/pages/Assignments.jsx:217 | a `yyyy-mm-dd` text exactly for a valid date; formatting any other throws |
| Assignments.AssignmentsPage.constructor | src/pages/Assignments.jsx:48-66 | closed dialogs, nothing edited, the default form, a fresh return form |
| Assignments.AssignmentsPage.ItemSelectorDisabled | src/pages/Assignments.jsx:423 | the item selector is disabled exactly while an assignment is being edited |
| Assignments.AssignmentsPage.HandleClose | src/pages/Assignments.jsx:228-240 | dialog closed, nothing edited (item selector enabled), the default form |
| Assignments.AssignmentsPage.OpenReturnDialog | src/pages/Assignments.jsx:186-190 | the assignment is being returned on condition Good and empty notes, dialog open |
| Assignments.AssignmentsPage.HandleEdit | src/pages/Assignments.jsx:212-226 | the assignment is edited (item selector disabled); the form is filled and the dialog opened unless a date fails to format |
| Assignments.AssignmentsPage.HandleReturn | src/pages/Assignments.jsx:192-210 | sent exactly when an assignment is chosen, with its id and the dialog's condition and notes; success reports it, closes the dialog, forgets the assignment and refreshes; failure shows server error or 'Failed to return assignment' |
| Assignments.AssignmentsPage.HandleDelete | src/pages/Assignments.jsx:170-184 | deleted exactly when confirmed; success reports it and refreshes; failure shows server error or 'Failed to delete assignment' |
| Assignments.AssignmentsPage.HandleSubmit | src/pages/Assignments.jsx:115-168 | a request is sent exactly when an item, an employee and a signed-in user are present; otherwise the validation message or 'Operation failed'; update when editing, else create; success messages, refresh and reset; failure shows server error, message or 'Operation failed'; loading ends false |
| Maintenance.RowEdits | src/pages/AdminMaintenance.jsx:43 | a row never edited has no edits |
| Maintenance.Edited | src/pages/AdminMaintenance.jsx:117 | a field has an edited value exactly when it was set for that row |
| Maintenance.WithField | src/pages/AdminMaintenance.jsx:35-37 | the field holds the new value; the row's other edits and every other row are kept; the row is now present |
| Maintenance.DisplayedStatus | src/pages/AdminMaintenance.jsx:127 | the non-empty edited status, otherwise the stored status |
| Maintenance.DisplayedDueDate | src/pages/AdminMaintenance.jsx:117 | the non-empty edited date, otherwise the stored date's day, or '' when none is stored; an invalid stored date throws |
| Maintenance.ChosenStatusShown | src/pages/AdminMaintenance.jsx:127-128 | choosing a status in a row shows it in that row |
| Maintenance.EditStaysInItsCell | src/pages/AdminMaintenance.jsx:36 | an edit changes neither other rows' display nor the other column of its own row |
| Maintenance.MaintenancePage.constructor | src/pages/AdminMaintenance.jsx:17-20 | no requests, no messages, no edits |
| Maintenance.MaintenancePage.Load | src/pages/AdminMaintenance.jsx:22-31 | the list is replaced on success; a failure sets only the error |
| Maintenance.MaintenancePage.SetField | src/pages/AdminMaintenance.jsx:35-37 | the edit map becomes `WithField` of the old one; nothing else changes |
| Maintenance.MaintenancePage.SaveRow | src/pages/AdminMaintenance.jsx:39-50 | the body is the row's edits or empty, and the edits are kept; success says 'Updated' and reloads; failure shows server error or 'Update failed' |
| Discounts.Reloaded | src/pages/AdminDiscounts.jsx:33-41 | a rejected request keeps the list; a fulfilled one replaces it, an empty body counting as [] |
| Discounts.LoadError | src/pages/AdminDiscounts.jsx:42-46 | 'Failed to load data' iff any request was rejected, otherwise '' |
| Discounts.DiscountsPage.constructor | src/pages/AdminDiscounts.jsx:18-23 | three empty lists, no messages, a blank form |
| Discounts.DiscountsPage.Load | src/pages/AdminDiscounts.jsx:25-47 | each list is replaced only by its own fulfilled request (items filtered to Available); the error follows `LoadError` |
| Discounts.DiscountsPage.Mount | src/pages/AdminDiscounts.jsx:50-56 | a non-admin is redirected to /home and nothing loads; an admin's page loads: items (Available only), users and discounts each from their own fulfilled request, and the load error |
| Discounts.DiscountsPage.Submit | src/pages/AdminDiscounts.jsx:70-87 | sent exactly when item, user and date are set, as their ids and the date; success says 'Discount assigned', clears the form and reloads items (Available only), users and discounts; failure shows server error or 'Failed to assign discount' |
| Users.Payload | src/pages/Users.jsx:92-102 | the five profile fields always; the password exactly when creating |
| Users.EditForm | src/pages/Users.jsx:139-146 | an empty password; missing department or employee id as '' |
| Users.EditThenSaveSendsProfile | src/pages/Users.jsx:137-148 | editing and saving unchanged sends the user's own profile and no password |
| Users.CanDelete | src/pages/Users.jsx:250 | the signed-in user's own id never offers deletion, two missing ids count as equal, and a row with an id when the signed-in user has none always does |
| Users.DeletableRows | src/pages/Users.jsx:250 | the listed rows whose id differs from the signed-in user's, and all of them |
| Users.OnlyOwnRowProtected | src/pages/Users.jsx:250 | the signed-in user's own row is never deletable; when no row is theirs, all are |
| Users.UsersPage.constructor | src/pages/Users.jsx:44-58 | closed dialog, nothing edited, blank form with role Employee, not loading, no messages |
| Users.UsersPage.HandleEdit | src/pages/Users.jsx:137-148 | the user is edited on a form filled from it, dialog open |
| Users.UsersPage.HandleClose | src/pages/Users.jsx:150-161 | dialog closed, nothing edited, blank form with role Employee |
| Users.UsersPage.HandleSubmit | src/pages/Users.jsx:80-120 | update (no password) when editing, else register (with password); success messages, refresh and reset; failure shows server error or 'Operation failed'; loading ends false |
| ReportIssue.Body | src/pages/ReportIssue.jsx:75 | the item's id, the priority and the notes |
| ReportIssue.BodyIsExactlyThreeFields | src/pages/ReportIssue.jsx:75 | two forms send the same body iff they agree on item id, priority and notes |
| ReportIssue.ReportIssuePage.constructor | src/pages/ReportIssue.jsx:38-43 | empty lists, no messages, not loading, the initial form |
| ReportIssue.ReportIssuePage.Load | src/pages/ReportIssue.jsx:45-61 | both lists are set only when both requests succeed; otherwise 'Failed to load data' |
| ReportIssue.ReportIssuePage.Submit | src/pages/ReportIssue.jsx:63-86 | with no item only the error changes ('Please select an item') and nothing is sent; otherwise the body is sent, success resets the form to its initial state and refetches the list, any failure shows server error or 'Failed to submit', loading ends false |
| Tally.Filter | src/pages/Inventory.jsx:122 | `filter` keeps exactly the elements satisfying the predicate |
| Tally.FilterMultiset | src/pages/Inventory.jsx:122 | `filter` keeps each satisfying element as many times as it occurs and drops the others |
| Tally.FilterIsSubsequence | src/pages/Inventory.jsx:122 | `filter` preserves order |
| Tally.Distinct | src/pages/Inventory.jsx:236 | `[...new Set(xs)]` has no duplicates and the same elements as `xs` |
| Tally.FirstIndex | src/pages/Inventory.jsx:236 | the index of the first occurrence: it holds the element and no earlier index does |
| Tally.DistinctInFirstOccurrenceOrder | src/pages/Inventory.jsx:236 | `[...new Set(xs)]` lists the elements in the order of their first occurrence in `xs` |
| Tally.DistinctCountsAll | src/pages/Reports.jsx:68-75 | counting the items under their distinct keys counts every item exactly once |
| Js.Split | src/pages/Inventory.jsx:197 | at least one piece; no piece contains the separator; one piece iff the separator is absent |
| Js.SplitJoin | src/pages/Inventory.jsx:197 | joining the pieces with the separator gives back the text |
| Js.LowerIdempotent | src/pages/Inventory.jsx:123 | lower-casing twice is lower-casing once |

## Left out

- HTTP requests, the remote API and every rule the server enforces are left out. The server rules are status transitions, one open assignment per item, discount percentages and prices, and the 1–15 date window. Only the server's answers enter the model, as inputs.
- The JavaScript `Date` object is left out: the current time, the time zone, `toISOString` and `toLocaleDateString`. Dates are abstract ordered instants and "now" is a parameter.
- Inventory.NormalizeDate: the `dd/mm/yyyy` branch builds a date through the parameter `toIso` (which may fail). The calendar arithmetic of `new Date(yyyy, mm - 1, dd)` is not modelled.
- Lower-casing covers the ASCII letters only. JavaScript's full Unicode case mapping is not modelled.
- React rendering, routing, theming, and dialogs' visual state beyond the open/closed flags are left out.
- Event listeners that reload on focus or visibility are left out. A reload after a successful save is a `refreshRequested` flag or a reload outcome passed in.
- `console` logging is left out.
- Item and user deletion are left out. Each is a confirm dialog plus one request whose only client-side logic is its success or error message, as in the modelled assignment deletion.
- The Login and Register pages are left out. They only forward to `login` and `register` and navigate.
- The fetch functions of the list pages other than those named in the table are left out. They set a list or a fixed error message.
- UserDashboard.FetchMyAssignments assumes a signed-in user: the page reads `user._id` before the request, and that user is provided by the authentication context.
- Reports.CalculateInventoryStats: the accumulator is modelled as a map without inherited keys. The source's `reduce` runs on a plain object, so a status named after an `Object.prototype` member behaves differently: 'toString' gets a text count and '__proto__' gets no key. The model does not capture these cases.
- Reports.CategoryBreakdown: the accumulator is modelled the same way, as a map without inherited keys. A category named 'constructor' or '__proto__' gets no row on the page, because the category is a free-text field. The model gives it a row. The order of the rows (`Object.entries`: insertion order, integer-like keys first) is also not stated.
- UserDashboard.FetchMyAssignments models the view the fetch leaves. The `loading` flag it sets and clears is not modelled.
- Assignments.DayOf: a date the server sends as JSON `null` is treated as missing, so formatting it counts as throwing. In JavaScript `new Date(null)` is the epoch and formats as 1970-01-01.
- Session.AuthProvider.Authenticate: the token is a string, so a success response without a token is not modelled. The source would store the text "undefined" in that case.
- Cross-tab synchronisation of the session is absent from the source by design (src/context/AuthContext.jsx:38), so each provider reads and writes its own tab's session store only.

## Findings

| source | as written | input that shows it | evidently intended | confidence | as-written member | corrected member |
|---|---|---|---|---|---|---|
| src/pages/UserDashboard.jsx:119-124 | the page reads the bearer token from `localStorage`, but `login` and `register` store it in `sessionStorage` only (src/context/AuthContext.jsx:50) | sign in on a fresh tab, then open the employee dashboard: 'No authentication token found' and a redirect to the login page | read the token with `getToken()` (session store first, src/library/auth.js:1-3) | not executed | UserDashboard.SessionTokenIgnored | UserDashboard.SessionTokenUsed |
| src/pages/UserDashboard.jsx:509 | the chip's label falls back to 'Good' but its colour is computed from the raw condition | an assignment without a condition: labelled 'Good', coloured 'default' instead of 'primary' | colour the label that is shown | not executed | UserDashboard.MissingConditionMiscoloured | UserDashboard.ConditionChip |
| src/pages/Reports.jsx:394-395 | `acc[category][status]++` runs whenever that property exists, and `total` is one of the row's properties | one item whose status is the string "total": its category's total is 2 | increment only the four status columns | not executed | Reports.TotalStatusCountedTwice | Reports.Bump |
