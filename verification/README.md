# Studio production manager: request and page logic in Dafny

This project models the decision logic of a studio production-management
web application built on a hosted auth-and-database service. The model
covers the following:

- **Admin API handlers.** `delete-user`, `create-user`, `update-user` and the
  `vendors` route. Each handler is a function. Its inputs are the session,
  the caller's profile role, the request body and the outcome of every call
  into the hosted service. It returns the HTTP reply and the sequence of
  service calls it makes, so "no call is made" can be stated and proved.
- **The request middleware.** `Proxy.Route` is the path/session gate.
  `Proxy.Middleware` builds the `NextResponse` objects and deletes the
  session cookies on the pass-through response.
- **The pagination control.** `Pagination.Render` gives the page buttons,
  the previous/next enablement and the targets.
- **The staff member's job list.** `MyJobs.MyJobsPage` is a class over the
  page state. It models the status update, with its timestamp payload and
  the merge into the local list, the search filter and the ten-per-page
  slicing.
- **The admin staff page.** `Staff.StaffPage` is a class over the page
  state and over the `staff_service_configs` table. It models the
  commission-row handlers, the mobile input filter, the list query, the page
  count, and the submit procedure, which creates or updates the user through
  the admin API and then rewrites the user's commission rows.

Shared modules:

- `Text`: optional fields, JavaScript truthiness, ASCII lower-casing,
  `startsWith`/`includes`, and the array index rule of `slice`/`splice`.
- `Http`: the reply type.
- `Database`: the `UserRole` and `JobStatus` enumerations.
- `Formats`: the two input patterns as character-level predicates.
- `Paging`: range and page-count arithmetic.

Some properties proved across modules:

- An edit submitted from the staff form without a new password is always
  refused by `update-user`. That handler requires a password and ignores
  every other field (`Staff.EditWithoutPasswordRefused`,
  `UpdateUser.ProfileFieldsIgnored`).
- Saving a USER's commissions and opening the form again loads back exactly
  the rows with a chosen service (`Staff.SaveThenLoad`).
- The e-mail pattern accepts exactly the strings with no white space, one
  `@` with text before it, and a `.` with text on both sides after it
  (`Formats.EmailPatternIffShape`).

## Model

| member | source | states |
|---|---|---|
| `Database.ParseRole` | types/database.ts:3 | a role text is read back only as the enumeration value whose stored name it is; any other text reads as none |
| `Database.ParseRoleName` | types/database.ts:3 | writing a role and reading it back gives the same role |
| `Text.ContainsAt` | app/api/admin/delete-user/route.ts:57 | the substring test used for `includes` holds exactly when the phrase occurs at some index |
| `Formats.EmailPatternIffShape` | app/api/vendors/route.ts:123-124 | the e-mail pattern accepts a string iff it has no white space, exactly one `@` with a non-empty part before it, and a `.` with text on both sides after the `@` |
| `Formats.IndexOf` | app/api/vendors/route.ts:123 | the first position of a character, or the length when it is absent |
| `Formats.IsMobile` | app/api/vendors/route.ts:113-114 | the mobile pattern: exactly ten characters, each a digit (characterised by `MobileIffDigitsKept`, partnered by `MalformedMobilesRefused` and `SanitizedMobileValid`) |
| `Formats.MobileIffDigitsKept` | app/api/vendors/route.ts:113-114 | the mobile pattern accepts exactly the ten-character strings that the digit filter keeps whole |
| `Formats.IsEmail` | app/api/vendors/route.ts:123-124 | a match has an `@` after its first character and is at least as long as `a@b.c` (the full characterisation is `EmailPatternIffShape`) |
| `Formats.DigitsOf` | app/dashboard/admin/staff/page.tsx:483 | removing the non-digits leaves only digits of the input, never lengthens the text, and keeps or drops a single character by whether it is a digit |
| `Formats.DigitsOfConcat` | app/dashboard/admin/staff/page.tsx:483 | the filter works character by character: filtering `a + b` gives the filtered `a` followed by the filtered `b`, so the digits keep their order |
| `Formats.SanitizeMobile` | app/dashboard/admin/staff/page.tsx:482-484 | the mobile input becomes the first ten digits of the typed text, in order, or all of them when there are fewer |
| `Formats.DigitsOfAllDigits` | app/dashboard/admin/staff/page.tsx:483 | text made only of digits passes the digit filter unchanged |
| `Formats.SanitizedMobileValid` | app/dashboard/admin/staff/page.tsx:482-484 | the filtered input is a valid mobile number iff the typed text held at least ten digits |
| `Formats.SanitizeMobileIdempotent` | app/dashboard/admin/staff/page.tsx:482-484 | filtering twice equals filtering once, and a valid mobile number is kept as it is |
| `Paging.RangeTiles` | app/api/vendors/route.ts:63-64 | the requested inclusive range holds exactly `limit` rows, and the next page starts right after it |
| `Paging.RowOnOnePage` | app/api/vendors/route.ts:63-64 | with a positive limit, row `i` lies in the range of page `p` iff `p = i / limit + 1` |
| `Paging.CeilDiv` | app/api/vendors/route.ts:85 | `Math.ceil(n / limit)`: null for limit 0, otherwise the integer `r` with `(r-1)*limit < n <= r*limit`, with the inequalities reversed for a negative limit |
| `Paging.PageCount` | app/dashboard/admin/staff/page.tsx:307 | the fewest pages of `limit` rows that hold `n` rows; it is 0 only for no rows and agrees with `Math.ceil` |
| `Paging.PageCountIsLastRowsPage` | app/api/vendors/route.ts:85 | with a positive limit the page count is the page of the last row, or 0 for no rows |
| `DeleteUser.Mentions` | app/api/admin/delete-user/route.ts:57 | the lower-cased error text contains the phrase iff the phrase occurs in it at some index |
| `DeleteUser.Delete` | app/api/admin/delete-user/route.ts:11-87 | no session gives 401; any role but ADMIN (a missing row included) gives 403; no call is made unless every guard passes; the identity is deleted first, and the profile row is deleted only on the "user not found" path; the 200 and 500 conditions |
| `DeleteUser.DeleteGuardReplies` | app/api/admin/delete-user/route.ts:11-34 | each guard reply (401, 403, 400 "User ID is required") is given exactly when that guard is the first to fail |
| `DeleteUser.DeleteSuccessReplies` | app/api/admin/delete-user/route.ts:53-83 | "User deleted successfully" iff the identity deletion succeeds; "Database-only user record cleaned up successfully" iff the ghost path's profile deletion succeeds |
| `DeleteUser.DeleteForeignKeyReplies` | app/api/admin/delete-user/route.ts:63-78 | a foreign-key error gives 400, with the reassign-jobs message on the ghost path and the referenced-in-jobs message otherwise |
| `DeleteUser.DeleteServerErrors` | app/api/admin/delete-user/route.ts:69-87 | every other failure gives 500 carrying the failing call's message, or "Failed to delete user" when it is empty |
| `DeleteUser.ManagerCannotDelete` | app/api/admin/delete-user/route.ts:24-27 | a MANAGER gets 403 and nothing is deleted |
| `DeleteUser.NotFoundBeforeForeignKey` | app/api/admin/delete-user/route.ts:57-78 | a message mentioning both phrases takes the ghost path and never gets the referenced-in-jobs reply |
| `DeleteUser.ProviderWordingIsGhost` | app/api/admin/delete-user/route.ts:57 | an illustration on one message: the test ignores case, so "User not found" takes the ghost path (the general property is `Mentions`) |
| `CreateUser.NormaliseRole` | app/api/admin/create-user/route.ts:50 | ADMIN and MANAGER are kept; the result is another role than USER only when that role's exact name was requested |
| `CreateUser.NormaliseRoleDefaults` | app/api/admin/create-user/route.ts:50 | a missing role, "USER", "admin" and "Manager" all become USER, and every stored role name maps to itself |
| `CreateUser.Create` | app/api/admin/create-user/route.ts:22-103 | the 401/403 guards; no call unless the caller is an ADMIN and gives e-mail and password; the identity is created first with the normalised role; a provider error gives 400 with its message and nothing more; the profile lookup follows, and the insert happens only when no row exists, with the same role as the identity; the 200 `{id}` and 500 "Failed to create user profile in database" conditions |
| `CreateUser.MissingCredentialsRefused` | app/api/admin/create-user/route.ts:43-45 | a missing or empty e-mail or password gives 400 "Email and password are required" and no call |
| `UpdateUser.Update` | app/api/admin/update-user/route.ts:16-44 | a missing id or password gives 400 and no call; otherwise exactly one password update of that id; 200 with the success message iff it succeeds, otherwise 500 with its message or "Internal Server Error" |
| `UpdateUser.ProfileFieldsIgnored` | app/api/admin/update-user/route.ts:19-32 | name, e-mail, mobile and role in the body change nothing |
| `UpdateUser.OnlySessionGuardsPasswordReset` | app/api/admin/update-user/route.ts:16-36 | the middleware's no-session 401 is the only guard: any signed-in caller passes it, and a body with id and password triggers the update |
| `Vendors.Split` | app/api/vendors/route.ts:21 | `split(' ')` yields at least one part, and no part contains the separator |
| `Vendors.JoinSplit` | app/api/vendors/route.ts:21 | joining the split parts gives back the header |
| `Vendors.SplitWithoutSeparator` | app/api/vendors/route.ts:21 | text without a space splits into itself |
| `Vendors.SplitAfterWord` | app/api/vendors/route.ts:21 | a leading space-free word splits off as the first part |
| `Vendors.BearerToken` | app/api/vendors/route.ts:20-21 | a token is found only in a header that has a space, and the token itself holds no space |
| `Vendors.BearerTokenOfHeader` | app/api/vendors/route.ts:20-21 | the token of `<scheme> <token>` is `token` when neither part holds a space |
| `Vendors.VerifyAuth` | app/api/vendors/route.ts:19-46 | 401 "Unauthorized" iff there is no token; 401 "Invalid Session" iff the token resolves to no user; authorised iff the caller is ADMIN or MANAGER; otherwise 403 |
| `Vendors.List` | app/api/vendors/route.ts:49-91 | an auth failure is returned as is and no query is sent; page and limit default to 1 and 10, and the 200 reply echoes those values; the range holds exactly `limit` rows from `(page-1)*limit`; the name filter is used iff the search text is non-empty, and then with that text; a query error gives 500 with its message; otherwise 200 with `totalPages = ceil(count / limit)` and a null count read as 0 |
| `Vendors.Create` | app/api/vendors/route.ts:94-152 | an auth failure is returned as is; a row is inserted iff the caller is authorised and the body passes the required-field, mobile and e-mail checks (e-mail only when given); the first failing check decides the 400; missing e-mail, location and notes are stored as null; 201 with the new row iff the insert succeeds, 500 with the insert's message iff it fails |
| `Vendors.MalformedMobilesRefused` | app/api/vendors/route.ts:113-119 | wrong lengths and non-digits are refused; ten digits are accepted |
| `Proxy.PathClassesExclusive` | proxy.ts:93-95 | no path is in two of the dashboard, login and admin-API classes |
| `Proxy.ClearsCookies` | proxy.ts:81-82 | the cookies are cleared iff there is a session error whose lower-cased message contains "refresh token" or "not found" at some index |
| `Proxy.Route` | proxy.ts:93-128 | redirect to /login iff a dashboard path has no session; redirect to /dashboard iff a login path has a session; 401 iff an admin-API path has no session; every other request passes |
| `Proxy.Response.Next` | proxy.ts:15-19 | the pass-through response starts with no deleted cookies |
| `Proxy.Response.Redirect` | proxy.ts:102 | a redirect response is fresh and carries no deleted cookies |
| `Proxy.Response.Denied` | proxy.ts:119 | the 401 response is fresh and carries no deleted cookies |
| `Proxy.Response.DeleteCookie` | proxy.ts:88-89 | deleting a cookie appends it to the response's deletions and leaves the gate alone |
| `Proxy.Middleware` | proxy.ts:4-128 | the response's gate is `Route`; both session cookies are deleted on the pass-through response iff the session error mentions "refresh token" or "not found"; redirect and 401 responses carry no deletions |
| `Proxy.GateIgnoresSessionError` | proxy.ts:97-120 | with a session a request is never denied or sent to /login; without one it is never sent to /dashboard |
| `Proxy.KnownPaths` | proxy.ts:93-120 | an illustration on concrete paths: how the application's own paths are gated (the general property is `Route`) |
| `Proxy.RefreshErrorClearsCookies` | proxy.ts:81-82 | an illustration on one message: the provider's "Refresh Token Not Found" clears the cookies (the general property is `ClearsCookies`) |
| `Pagination.Render` | components/Pagination.tsx:18-75 | nothing iff there is at most one page; one button per page; previous disabled iff on page 1, next disabled iff on the last page; a button is active iff it is the current page |
| `Pagination.PagesAreOneToTotal` | components/Pagination.tsx:21-47 | the page buttons are 1..total in strictly ascending order |
| `Pagination.ExactlyOneActive` | components/Pagination.tsx:48-53 | exactly one button is active when the current page is in range, none otherwise |
| `Pagination.EnabledTargetsInRange` | components/Pagination.tsx:30-62 | from a page in range, every enabled button requests a page in range: previous `current-1`, next `current+1` |
| `MyJobs.Payload` | app/dashboard/staff/my-jobs/page.tsx:91-103 | `updated_at` is always the update time and no extra key replaces it; the status is the new one unless extra data gives one; `started_at` is set iff IN_PROGRESS and `completed_at` iff COMPLETED, otherwise they are what the extra data says |
| `MyJobs.Apply` | app/dashboard/staff/my-jobs/page.tsx:112-114 | `{ ...job, ...payload }`: a key the payload has wins, a key it lacks keeps the job's value, and the id and the joined service and description are kept |
| `MyJobs.Merge` | app/dashboard/staff/my-jobs/page.tsx:112-114 | the list keeps its length; a job with the updated id becomes the spread of the payload over it, and every other job stays as it was |
| `MyJobs.MergeTouchesOnlyMatching` | app/dashboard/staff/my-jobs/page.tsx:112-114 | the merge keeps the length and the id order, leaves every other job unchanged, and keeps the updated job's name and description |
| `MyJobs.MergeIdempotent` | app/dashboard/staff/my-jobs/page.tsx:112-114 | applying the same update twice equals applying it once |
| `MyJobs.StatusButtonEffects` | app/dashboard/staff/my-jobs/page.tsx:91-114 | a status button sets the status and the update time, and stamps `started_at` or `completed_at` only for IN_PROGRESS or COMPLETED |
| `MyJobs.PendingKeepsTimestamps` | app/dashboard/staff/my-jobs/page.tsx:97-103 | moving a job back to PENDING keeps both timestamps |
| `MyJobs.FilterJobs` | app/dashboard/staff/my-jobs/page.tsx:139-145 | the filtered list is no longer than the list and holds only matching jobs of the list |
| `MyJobs.FilterKeepsMatches` | app/dashboard/staff/my-jobs/page.tsx:139-145 | a job is kept iff it is in the list and the lower-cased term occurs in its lower-cased service name or description |
| `MyJobs.FilterConcat` | app/dashboard/staff/my-jobs/page.tsx:139-145 | filtering keeps the original order: it distributes over concatenation |
| `MyJobs.EmptySearchKeepsAll` | app/dashboard/staff/my-jobs/page.tsx:140 | an empty search keeps every job |
| `MyJobs.FilterIdempotent` | app/dashboard/staff/my-jobs/page.tsx:139-145 | searching twice for a term equals searching once |
| `MyJobs.Slice` | app/dashboard/staff/my-jobs/page.tsx:148-151 | `slice(a, b)` returns items of the list only: `items[a..b]` for bounds from 0, the end clamped to the list, nothing for an empty or out-of-range span, and the last `k` items for a start of `-k` |
| `MyJobs.PageOf` | app/dashboard/staff/my-jobs/page.tsx:148-151 | a page holds only items of the list, and at most ten from page 1 on |
| `MyJobs.PageBounds` | app/dashboard/staff/my-jobs/page.tsx:147-151 | a page from 1 on holds at most ten jobs: the filtered list from `(page-1)*10` up to `page*10`, or nothing past the end |
| `MyJobs.ItemOnItsPage` | app/dashboard/staff/my-jobs/page.tsx:147-151 | job `i` is shown on page `i / 10 + 1` at position `i % 10` |
| `MyJobs.NonEmptyPages` | app/dashboard/staff/my-jobs/page.tsx:147-151 | pages 1..`ceil(n/10)` are exactly the non-empty ones |
| `MyJobs.MyJobsPage.constructor` | app/dashboard/staff/my-jobs/page.tsx:22-31 | the page starts with no jobs, no selection, the view modal closed, an empty search and page 1 |
| `MyJobs.MyJobsPage.Filtered` | app/dashboard/staff/my-jobs/page.tsx:139-145 | the filtered jobs are jobs of the page that match the search, and all of them when the search is empty |
| `MyJobs.MyJobsPage.Visible` | app/dashboard/staff/my-jobs/page.tsx:147-151 | the table shows matching jobs of the page only, at most ten from page 1 on |
| `MyJobs.MyJobsPage.TotalPages` | app/dashboard/staff/my-jobs/page.tsx:147 | `ceil(matches / 10)`: 0 only for no match, and the fewest pages of ten that hold every match |
| `MyJobs.MyJobsPage.OpenView` | app/dashboard/staff/my-jobs/page.tsx:129-132 | opening a job selects it and opens the view modal; nothing else changes |
| `MyJobs.MyJobsPage.CloseView` | app/dashboard/staff/my-jobs/page.tsx:134-137 | closing closes the view modal and clears the selection; nothing else changes |
| `MyJobs.MyJobsPage.SetPage` | app/dashboard/staff/my-jobs/page.tsx:307 | the pagination control sets the page and changes nothing else |
| `MyJobs.MyJobsPage.UpdateStatus` | app/dashboard/staff/my-jobs/page.tsx:88-127 | on a database error the list and the selection are unchanged; otherwise the list is the merge of the payload, and the selected job is merged only when its id matches; nothing else changes |
| `MyJobs.MyJobsPage.SetSearchTerm` | app/dashboard/staff/my-jobs/page.tsx:189 | the search box sets the term, keeps the current page and changes nothing else |
| `MyJobs.MyJobsPage.SetSearchTermFromFirstPage` | app/dashboard/staff/my-jobs/page.tsx:189 | with the page reset to 1, a search that matches some job always shows one |
| `MyJobs.SearchKeepsStalePage` | app/dashboard/staff/my-jobs/page.tsx:302-310 | from page 2 on, a search leaving one to ten matches shows an empty table and no pagination control, though page 1 is non-empty |
| `Staff.Splice` | app/dashboard/admin/staff/page.tsx:137 | `splice(index, 1)` removes at most one row and adds none: one row goes for any index below the length of a non-empty list, none otherwise |
| `Staff.SpliceRemovesOne` | app/dashboard/admin/staff/page.tsx:135-139 | removing row `i` removes exactly that row and keeps the others in order |
| `Staff.SpliceOutOfRange` | app/dashboard/admin/staff/page.tsx:137 | a negative index counts from the end, one below minus the length removes the first row, and an index past the end removes nothing |
| `Staff.UpdateAt` | app/dashboard/admin/staff/page.tsx:141-146 | only row `index` changes, and only the named field; an unknown field or an index outside the list changes nothing |
| `Staff.ConfigRows` | app/dashboard/admin/staff/page.tsx:249-255 | the inserted rows all carry the user's id and a chosen service, and there are no more of them than commissions |
| `Staff.Chosen` | app/dashboard/admin/staff/page.tsx:250 | the commissions with a chosen service, taken from the list and no more of them than there are commissions |
| `Staff.ChosenKeepsChosen` | app/dashboard/admin/staff/page.tsx:250 | a commission is chosen iff it is in the form and has a service |
| `Staff.ChosenConcat` | app/dashboard/admin/staff/page.tsx:250 | choosing keeps the form's order: it distributes over concatenation |
| `Staff.WithoutStaff` | app/dashboard/admin/staff/page.tsx:245 | after the delete, no row of the user remains and no row is added |
| `Staff.ConfigsOf` | app/dashboard/admin/staff/page.tsx:168-171 | the query returns only that user's rows of the table (every one of them, by `ConfigsOfKeeps`) |
| `Staff.ConfigsOfKeeps` | app/dashboard/admin/staff/page.tsx:168-171 | a row is returned by the user's query iff it is in the table and belongs to that user |
| `Staff.ToCommissions` | app/dashboard/admin/staff/page.tsx:174-177 | one form row per loaded config row |
| `Staff.WithoutStaffKeepsOthers` | app/dashboard/admin/staff/page.tsx:245 | a row survives the delete iff it belongs to another user |
| `Staff.ConfigsOfConcat` | app/dashboard/admin/staff/page.tsx:168-171 | the user's query distributes over concatenated tables: it keeps table order |
| `Staff.ConfigsOfOwnRows` | app/dashboard/admin/staff/page.tsx:168-171 | the user's query returns every row inserted for that user, in order |
| `Staff.ToCommissionsOfRows` | app/dashboard/admin/staff/page.tsx:174-177 | loading the inserted rows back gives exactly the commissions with a chosen service |
| `Staff.SaveThenLoad` | app/dashboard/admin/staff/page.tsx:168-180 | the rows saved for a USER (old rows deleted, chosen rows inserted) load back as exactly the chosen commissions, in order |
| `Staff.CreateBodyAdmitted` | app/dashboard/admin/staff/page.tsx:206-221 | a form that passes the e-mail check and has a password passes create-user's required-field check, and the role shown is the role created |
| `Staff.EditWithoutPasswordRefused` | app/dashboard/admin/staff/page.tsx:227-243 | an edit without a new password sends no password, so update-user answers 400 and makes no call |
| `Staff.StaffPage.constructor` | app/dashboard/admin/staff/page.tsx:16-46 | the initial page state: empty list, page 1, create mode, a blank USER form, no commissions |
| `Staff.StaffPage.ListQuery` | app/dashboard/admin/staff/page.tsx:104-119 | the list query is ten rows from `(page-1)*10`, filtered by the search text iff it is non-empty |
| `Staff.StaffPage.TotalPages` | app/dashboard/admin/staff/page.tsx:307 | `ceil(totalCount / 10)`: 0 only for no rows, and the fewest pages of ten that hold every row |
| `Staff.StaffPage.SetSearchTerm` | app/dashboard/admin/staff/page.tsx:310-313 | a new search term sends the page back to 1, so the query starts at row 0; no other field changes |
| `Staff.StaffPage.SetPage` | app/dashboard/admin/staff/page.tsx:445 | the pagination control sets the page; no other field changes |
| `Staff.StaffPage.FetchStaff` | app/dashboard/admin/staff/page.tsx:104-129 | a successful query replaces the list and the count (null read as 0); an error keeps both; no other field changes |
| `Staff.StaffPage.AddCommission` | app/dashboard/admin/staff/page.tsx:131-133 | exactly one blank row is appended; no other field changes |
| `Staff.StaffPage.RemoveCommission` | app/dashboard/admin/staff/page.tsx:135-139 | the list is spliced at the index; for an index in range exactly that row goes; no other field changes |
| `Staff.StaffPage.UpdateCommission` | app/dashboard/admin/staff/page.tsx:141-146 | the list becomes `UpdateAt` of the old list; no other field changes |
| `Staff.StaffPage.SetMobileInput` | app/dashboard/admin/staff/page.tsx:482-484 | the form's mobile becomes the first ten digits of the typed text, valid iff the text held ten digits; no other field changes |
| `Staff.StaffPage.OpenCreate` | app/dashboard/admin/staff/page.tsx:148-155 | create mode with a blank form and no commissions; no other field changes |
| `Staff.StaffPage.Edit` | app/dashboard/admin/staff/page.tsx:157-183 | edit mode, the form from the member with an empty password, and the commissions from the member's config rows, or none when that query fails; no other field changes |
| `Staff.StaffPage.Submit` | app/dashboard/admin/staff/page.tsx:185-274 | e-mail is checked before mobile, and a failed check sends nothing; exactly one create or update request otherwise; a refused request changes no config row; after an update the user's rows are deleted; a USER's chosen rows are inserted; the notice and the modal follow; an edited user switched away from USER keeps no config row; no other field changes |
| `Staff.StaffPage.SubmitEdit` | app/dashboard/admin/staff/page.tsx:222-246 | the edit branch: exactly one update-user request for the edited id; a refused update leaves the table and the modal as they were and shows the error; otherwise the user's old rows are deleted (unless that unchecked delete fails) before the save; no other field changes |
| `Staff.StaffPage.SaveCommissions` | app/dashboard/admin/staff/page.tsx:247-270 | once the user exists: a USER's chosen rows are appended to the table unless the insert fails; a failed insert keeps the modal open with its message; otherwise the modal closes with the success notice; no other field changes |

## Left out

- Calls into the hosted auth and database service are not modelled. Each call's outcome is a parameter: session present, profile role, error message text, row found, insert failing. The query builders and the `ilike` filter semantics are left out.
- A query without `.order` (the commission query of the staff page) is assumed to return rows in table (insertion) order; the database does not promise this. `Staff.ConfigsOf`, `Staff.ConfigsOfConcat`, `Staff.ConfigsOfOwnRows` and `Staff.SaveThenLoad` state order under that assumption; without it they hold for the multiset of rows only.
- Logging, `request.json()` parse failures and thrown non-`Error` values are left out. Every caught error is modelled by its message text.
- `toLowerCase` lowers ASCII letters only. `includes` is exact on the lowered text.
- `parseInt` of the vendor list parameters is taken as already done. A missing or empty parameter is `None`; NaN results are not modelled.
- `Number(value)` in `updateCommission` and `handleEdit` is taken as already converted. Text that is not a number (NaN) is not modelled.
- `MyJobs.Payload`: extra data may set only the status and the three timestamps. Other keys, and keys explicitly set to null, are not modelled. The three `new Date().toISOString()` reads of one update are one timestamp `now`.
- `MyJobs.MyJobsPage.UpdateStatus`: `newStatus` is a `JobStatus`, the values every caller passes, not an arbitrary string.
- The commission handlers copy the array shallowly, so `updateCommission` also writes into the row object of the previous state. The model has value rows and does not capture that aliasing.
- The browser throws `TypeError` in `updateCommission` when the index is outside the list. The model only keeps the resulting "list unchanged".
- The re-fetch effects (`useEffect` on page and search), `Promise.allSettled`, the `mounted` flags, loading and submitting flags, the notification timer, and the re-fetch of the staff list after a save or delete are left out.
- The staff page's `handleDelete` only forwards to `delete-user` and shows a notification. That route is modelled; the forwarding is not.
- `fetchMyJobs` and `fetchServices` are not modelled. They are queries whose results only replace state.
- The proxy's cookie `get/set/remove` adapter and its `matcher` configuration are not modelled.
- app/login/page.tsx, lib/auth.ts, types/next-auth.d.ts, app/page.tsx, app/layout.tsx and app/api/test/route.ts are not part of this model. The `[id]` vendor route is not part of this model either.
- JSX, styling and icons are not modelled. Of the modals, the model keeps the staff page's form modal flag and its notice, and the my-jobs view modal flag with the selected job; the my-jobs modal's own loading flag is left out.
- JSON body fields are modelled as strings, present or absent. A number or boolean in a field, such as a numeric `mobile` in the vendor `POST`, is coerced by the source's truthiness checks and `regex.test`; that coercion is not modelled.

## Findings

| source | as written | input that shows it | evidently intended | confidence | as-written member | corrected member |
|---|---|---|---|---|---|---|
| app/dashboard/staff/my-jobs/page.tsx:189 | the search box sets the term but keeps the current page, and the pagination control is mounted only beside a non-empty table (302-310) | 11 matching jobs, the user on page 2, then a search term matching at most 10 of them: the table is empty, no pagination control is shown, and matches exist on page 1 | reset to page 1 on a new search, as the staff page does at app/dashboard/admin/staff/page.tsx:310-313 | medium, not executed | `MyJobs.SearchKeepsStalePage` | `MyJobs.MyJobsPage.SetSearchTermFromFirstPage` |
