# NMLC admin dashboard: the admin API as a Dafny model

The admin dashboard is a web application for the staff of a learning platform.
Its server side is a set of HTTP route handlers over a hosted document store
and file bucket. The collections are profiles, subscriptions, content, access
codes, admins and notifications. This project models that server side:

- the admin-authorisation check `assertAdmin` and the session probe
  `getSessionUser`, with the five-minute in-process cache they share (`Auth`);
- `GET /api/me` (`Me`);
- the admin-set routes: list, add, and remove with its self-removal and
  last-admin guards (`Admins`);
- approving a student and resetting a student's bound device (`Profiles`);
- extending and expiring subscriptions (`Subscriptions`);
- generating, listing and exporting access codes as CSV (`AccessCodes`);
- listing, uploading and deleting content (`Content`);
- the student list joined with subscriptions (`Students`);
- the overview counts, activity feed and charts (`Overview`);
- the notification routes, including mark-all-read (`Notifications`);
- the server-side notification helper and its message templates (`Notify`).

The store is modelled in `Records`. Each collection is a `Collection<T>` object
whose `docs` sequence the handlers that write to the store update in place.
Read-only handlers are functions of what the store returned.

Everything a handler cannot compute is an input:

- the outcome of `assertAdmin` (`auth`);
- the failure of each backend call (`…Fault`, `None` when the call succeeds);
- the clock (`now`);
- store-assigned ids and `Math.random()` text;
- the ISO-8601 rendering of a time (`iso`).

Two ways of turning a thrown error into an HTTP status exist in the routes, and
both are modelled in `Errors`:

- the plain `error.status || 500`;
- the "auth-aware" rule, which answers 401 first when the message mentions
  "Unauthorized", "JWT" or "Expired".

`Text` holds the JavaScript string and number operations the handlers rely on:
`String(n)`, `parseInt`, `includes`, `split`, the case mappings, `substring`,
and single-character `replace`.

Where the repository's own description of the system and its code disagree,
the model follows the code:

- Generating access codes makes no uniqueness or per-student check, and never answers 409.
- No route answers 403. "Forbidden: Not an admin" carries no status, so it
  becomes 500 (`Errors.NotAdminStatuses`).
- The overview is recomputed on every request; nothing caches it.
- A failed `createNotification` is rethrown, not swallowed.
- `yearOfStudy` is normalised only when content is uploaded. The content
  listing filters on the value as given (`Content.NormaliseYearFixed`).
- `deleteContent` deletes whatever file id it is sent (`Content.DeleteWithForeignFileId`).
- `deleteContent` with an unknown `contentId` and `PATCH` of an unknown notification
  id fail with the store's not-found error. The store client puts the HTTP code in
  `code`, not `status`, so both routes answer 500, not 404 (`Errors.DocumentNotFoundStatuses`).
- `resetDevice`, `extendSubscription` and `expireSubscription` do not check
  that `userId` is present. `extendSubscription` does not validate `days`.

## Model

| member | source | states |
|---|---|---|
| Records.Collection.constructor | src/server/appwrite.ts:1-57 | a collection starts with the documents it is given |
| Records.FirstWith | src/app/api/admin/approveUser/route.ts:23-31 | the index `documents[0]` of an equality lookup picks: a match with no match before it, `None` exactly when nothing matches |
| Records.FirstWithSameKeys | src/app/api/admin/notifications/route.ts:85-93 | updating attributes other than the lookup key does not move the first match |
| Records.CountWith | src/server/auth.ts:28-38 | the `total` of an equality lookup is at most the collection size, and zero exactly when there is no first match |
| Records.RemoveAt | src/app/api/admin/admins/remove/route.ts:41-45 | `deleteDocument` removes exactly one element and keeps the others in order |
| Records.FiltersOn | src/app/api/admin/content/route.ts:18-27 | the queries filtering on an attribute form a subsequence, all on that attribute |
| Records.PushWhen | src/app/api/admin/content/route.ts:24-27 | `if (x) queries.push(q)` appends `q` exactly when `x` holds |
| Records.FiltersOnAppend | src/app/api/admin/content/route.ts:18-27 | the filters of a concatenation are the filters of the parts, in order |
| Records.NoFiltersOn | src/app/api/admin/content/route.ts:18-21 | ordering, limit and offset queries filter on nothing |
| Records.PushedFilters | src/app/api/admin/content/route.ts:24-27 | a conditional push adds to the filters on an attribute exactly when the pushed query is on it |
| Records.FourPushesFilters | src/app/api/admin/content/route.ts:18-27 | after four conditional pushes onto an unfiltered start, the filters on an attribute are the one push on it |
| Records.ThreePushesFilters | src/app/api/admin/students/route.ts:17-25 | the same for three conditional pushes |
| Records.TwoPushesFilters | src/app/api/admin/notifications/route.ts:14-25 | the same for two conditional pushes |
| Errors.StatusOf | src/app/api/admin/admins/route.ts:16 | `error.status \|\| 500` is never 0; it is 500 without a status or with status 0, and a non-zero status unchanged |
| Errors.AuthAwareStatus | src/app/api/admin/content/route.ts:37 | a message naming Unauthorized, JWT or Expired gives 401, any other the plain rule; 401 exactly in those cases or for a thrown 401 |
| Errors.FirstFault | src/app/api/admin/notifications/mark-all-read/route.ts:19-29 | `Promise.all` over n writes fails exactly when one of them fails |
| Errors.FirstFaultIsFirst | src/app/api/admin/notifications/mark-all-read/route.ts:19-29 | the reported failure is that of a write all of whose predecessors succeeded |
| Errors.Fail | src/app/api/admin/admins/route.ts:16 | the error reply carries the error's message and `error.status \|\| 500` |
| Errors.FailAuthAware | src/app/api/admin/notifications/route.ts:36-37 | the error reply carries the message and the auth-aware status |
| Errors.NoSessionStatuses | src/server/auth.ts:15-17 | a missing session is 401 on the auth-aware routes and 500 on the others |
| Errors.NotAdminStatuses | src/server/auth.ts:43-45 | "Forbidden: Not an admin" is 500 under both rules, never 403 |
| Errors.DocumentNotFoundStatuses | src/app/api/admin/deleteContent/route.ts:36 | the store's not-found error carries no `status`, so both status rules answer an unknown document id with 500, never 404 |
| Text.OrElse | src/app/api/admin/students/route.ts:13-14 | `x \|\| fallback` is the value when it is non-empty and the fallback otherwise |
| Text.DigitChar | src/server/notifications.ts:58 | a decimal digit character denoting the given digit |
| Text.NatToString | src/server/notifications.ts:58 | the rendering of a natural number is a non-empty run of digits |
| Text.IntToString | src/server/notifications.ts:58 | the rendering of an integer is non-empty |
| Text.LeadingDigits | src/app/api/admin/students/route.ts:13-14 | the longest all-digit prefix, followed by a non-digit or the end |
| Text.TrimStart | src/app/api/admin/students/route.ts:13-14 | skipping leading white space never lengthens the text, and leaves text not starting with white space alone |
| Text.TrimStartSkipsSpace | src/app/api/admin/students/route.ts:13-14 | `parseInt` skips exactly the leading white space: what remains is a suffix that does not start with white space, and everything dropped is white space |
| Text.ParseInt | src/app/api/admin/students/route.ts:13-14 | `parseInt` of empty text is NaN, and a run of digits parses to its decimal value (the other cases by ParseIntOfRendered, ParseIntNoSpace and DefaultNumerals) |
| Text.DigitsValueOfNat | src/server/notifications.ts:58 | the digits of `String(n)` denote `n` |
| Text.LeadingDigitsOfPrefix | src/app/api/admin/students/route.ts:13-14 | `parseInt` stops exactly at the end of a digit run followed by a non-digit |
| Text.ParseDigitsOfNat | src/app/api/admin/students/route.ts:13-14 | the digits of a number followed by a non-digit read back as that number |
| Text.ParseSignedNat | src/app/api/admin/students/route.ts:13-14 | an unsigned rendering followed by a non-digit reads back |
| Text.ParseSignedNegative | src/app/api/admin/students/route.ts:13-14 | a negative rendering followed by a non-digit reads back |
| Text.ParseIntNoSpace | src/app/api/admin/students/route.ts:13-14 | text not starting with white space is parsed as it stands |
| Text.ParseIntOfRendered | src/server/notifications.ts:58 | round trip: `parseInt(String(n) + rest)` is `n` when `rest` does not start with a digit |
| Text.DefaultNumerals | src/app/api/admin/accessCodes/route.ts:46-47 | the default page sizes and offsets "50", "10" and "0" parse to 50, 10 and 0 |
| Text.NotContainsByFirstChar | src/app/api/admin/content/route.ts:37 | a needle whose first character is absent is not found |
| Text.IndexOf | src/app/api/admin/content/route.ts:83 | the first occurrence of a character, or the length when it does not occur |
| Text.Split | src/app/api/admin/exportAccessCodes/route.ts:25-28 | `split` always gives at least one part |
| Text.SplitNoSeparator | src/app/api/admin/exportAccessCodes/route.ts:25-28 | text without the separator splits into itself |
| Text.SplitAtFirst | src/app/api/admin/exportAccessCodes/route.ts:25-28 | splitting peels off the text before the first separator |
| Text.Lower | src/app/api/admin/content/route.ts:83 | `toLowerCase` keeps the length and lower-cases each character |
| Text.Upper | src/app/api/admin/accessCodes/route.ts:19 | `toUpperCase` keeps the length and upper-cases each character |
| Text.Substring | src/app/api/admin/accessCodes/route.ts:19 | `substring` clamps both ends to the length: the slice between them, or empty past the end |
| Text.CountAppend | src/app/api/admin/content/route.ts:83 | occurrences add up over concatenation |
| Text.CountAbsent | src/app/api/admin/content/route.ts:83 | an absent character occurs zero times |
| Text.RemoveFirst | src/app/api/admin/content/route.ts:83 | `replace(c, '')` removes only the first occurrence, and leaves text without `c` unchanged |
| Auth.AuthCache.constructor | src/server/auth.ts:5-7 | the cache starts empty |
| Auth.HasFreshEntry | src/server/auth.ts:22-23 | a cache entry is used only when the token has one, and then exactly while less than five minutes (300000 ms) have passed since it was written |
| Auth.IsAdmin | src/server/auth.ts:30-38 | `admins.total > 0` holds exactly when some admin record carries the user's id |
| Auth.AuthCache.AssertAdmin | src/server/auth.ts:10-52 | no or empty cookie: NoSession, no backend call; fresh entry: its verdict, no backend call; miss: identity then admin lookup, the entry is written, NotAdmin unless `total > 0`; other tokens' entries are unchanged |
| Auth.AuthCache.GetSessionUser | src/server/auth.ts:54-82 | no cookie gives null; a fresh entry answers its user whatever its admin flag; a miss asks the session service, and a failure gives null; the cache is not written |
| Auth.RevokedAdminKeepsAccess | src/server/auth.ts:22-26 | an admin removed from the admin set keeps access through a cached session for five minutes |
| Auth.PromotedUserStillRefused | src/server/auth.ts:41-45 | a refused user stays refused for five minutes after being made an admin |
| Auth.StaleEntryIsRefreshed | src/server/auth.ts:22-41 | after five minutes the check asks the backend again and sees the new admin set |
| Me.HttpStatus | src/app/api/me/route.ts:8 | 401 exactly for the unauthenticated reply |
| Me.Respond | src/app/api/me/route.ts:4-30 | unauthenticated exactly without a session user; otherwise its id and email, and `isAdmin` exactly when `assertAdmin` succeeded (its error is swallowed) |
| Me.Handle | src/app/api/me/route.ts:4-30 | the route run against the cache, each helper with its own clock reading and session lookup: no cookie gives 401; whether there is a session and whose is decided by `getSessionUser`'s cache hit or lookup, and `isAdmin` by `assertAdmin`'s own cache hit or lookups |
| Me.SessionLostBetweenLookups | src/app/api/me/route.ts:6-26 | a session confirmed for `getSessionUser` but refused to `assertAdmin`'s second `account.get()` is answered 200 with `isAdmin` false |
| Admins.ListAdmins | src/app/api/admin/admins/route.ts:6-18 | the admin documents as listed, or the auth or list error with `status \|\| 500` |
| Admins.AddAdmin | src/app/api/admin/admins/route.ts:20-57 | 400 without `userId`, 400 for an existing admin; otherwise one record appended with that user, email and time; unique user ids stay unique |
| Admins.RemoveAdmin | src/app/api/admin/admins/remove/route.ts:6-51 | guards in order: missing id 400, self-removal 400, at most one admin 400, unknown 404; otherwise that user's first record removed; a non-empty admin set never becomes empty |
| Profiles.SetApproval | src/app/api/admin/approveUser/route.ts:33-40 | the user's first profile gets the flag sent and every other profile is unchanged; without a profile nothing changes |
| Profiles.ClearDevice | src/app/api/admin/resetDevice/route.ts:22-27 | the user's first profile gets no device id and every other profile is unchanged; without a profile nothing changes |
| Profiles.ApprovalLastWriteWins | src/app/api/admin/approveUser/route.ts:33-40 | approving sets the flag and does not toggle it: the last value sent wins |
| Profiles.ResetDeviceIdempotent | src/app/api/admin/resetDevice/route.ts:22-27 | resetting twice equals resetting once |
| Profiles.ApproveUser | src/app/api/admin/approveUser/route.ts:5-46 | 400 without `userId`; 404 without a profile; otherwise the approval flag of the first profile is set as sent |
| Profiles.ResetDevice | src/app/api/admin/resetDevice/route.ts:6-33 | 404 without a profile; otherwise the first profile's device id is cleared |
| Subscriptions.NewEndDate | src/app/api/admin/extendSubscription/route.ts:41-43 | the new end is the later of the current end and now, plus `days` days |
| Subscriptions.Extended | src/app/api/admin/extendSubscription/route.ts:38-55 | an extension sets ACTIVE, the new end date and the update time, and keeps the id, user and start |
| Subscriptions.ForceExpired | src/app/api/admin/expireSubscription/route.ts:22-31 | expiry sets EXPIRED with end date and update time now, and keeps the id, user and start |
| Subscriptions.ExtendAfterExpiry | src/app/api/admin/extendSubscription/route.ts:41-43 | EXPIRED is not terminal: a later extension reactivates it for exactly `days` from then |
| Subscriptions.ExtensionsStack | src/app/api/admin/extendSubscription/route.ts:41-43 | two extensions add up while the first still reaches past the second's time |
| Subscriptions.Extend | src/app/api/admin/extendSubscription/route.ts:7-61 | without a subscription one ACTIVE is created from now; otherwise only the first one is extended; the reply carries the end date written |
| Subscriptions.Expire | src/app/api/admin/expireSubscription/route.ts:6-37 | 404 without a subscription; otherwise only the first one is force-expired, whatever its status |
| AccessCodes.CodeSuffix | src/app/api/admin/accessCodes/route.ts:19 | the random part of a code has at most six characters and no lower-case letter |
| AccessCodes.CodeBatch | src/app/api/admin/accessCodes/route.ts:18-31 | the creates leave at most `quantity` documents (their shape by CodeBatchShape) |
| AccessCodes.CodeBatchShape | src/app/api/admin/accessCodes/route.ts:18-31 | every generated code is unused, unredeemed, has the requested duration and the prefix plus at most six characters; without failures there are exactly `quantity` of them, in order |
| AccessCodes.GenerateCodes | src/app/api/admin/accessCodes/route.ts:6-39 | 400 unless duration and quantity are both non-zero; otherwise the loop appends the batch and the reply counts the creates issued |
| AccessCodes.ListQueries | src/app/api/admin/accessCodes/route.ts:41-66 | newest first, limit defaulting to 50, offset to 0, then the used filter |
| AccessCodes.ExportQueries | src/app/api/admin/exportAccessCodes/route.ts:13-16 | at most 5000 documents, then the same used filter |
| AccessCodes.CsvFields | src/app/api/admin/exportAccessCodes/route.ts:25-28 | one field per column |
| AccessCodes.CsvRow | src/app/api/admin/exportAccessCodes/route.ts:26-27 | a document's row is a single line when none of its fields holds a line break (its fields read back by RowFields) |
| AccessCodes.Csv | src/app/api/admin/exportAccessCodes/route.ts:25-28 | the export holds exactly one line break per document plus the header's, when no row holds one |
| AccessCodes.RowsBreaks | src/app/api/admin/exportAccessCodes/route.ts:26-28 | rows without line breaks of their own contribute one line break each |
| AccessCodes.CsvRowsAppend | src/app/api/admin/exportAccessCodes/route.ts:25-28 | one more document adds its row at the end |
| AccessCodes.CsvRowsStep | src/app/api/admin/exportAccessCodes/route.ts:25-28 | the rows of a prefix one longer are those of the prefix plus the next row |
| AccessCodes.CsvStep | src/app/api/admin/exportAccessCodes/route.ts:26-28 | the export of one more document is the previous export with that document's line appended |
| AccessCodes.ExportCsv | src/app/api/admin/exportAccessCodes/route.ts:25-28 | the `+=` loop builds exactly the header and one line per document |
| AccessCodes.SplitJoinFields | src/app/api/admin/exportAccessCodes/route.ts:25-28 | comma-joined fields without commas split back into themselves |
| AccessCodes.HeaderIsJoin | src/app/api/admin/exportAccessCodes/route.ts:25 | the header is the column names joined with commas |
| AccessCodes.ColumnsPlain | src/app/api/admin/exportAccessCodes/route.ts:25 | no column name holds a comma or a line break |
| AccessCodes.JoinFieldsAvoids | src/app/api/admin/exportAccessCodes/route.ts:25-28 | a character in no field, other than the comma, is not in the join |
| AccessCodes.HeaderColumns | src/app/api/admin/exportAccessCodes/route.ts:25 | the header splits into the six columns in row order |
| AccessCodes.RowFields | src/app/api/admin/exportAccessCodes/route.ts:26-28 | a row splits back into its fields when no field holds a comma |
| AccessCodes.SplitRows | src/app/api/admin/exportAccessCodes/route.ts:26-28 | split at line breaks, the rows give one line per document in order and a final empty line |
| AccessCodes.HeaderOneLine | src/app/api/admin/exportAccessCodes/route.ts:25 | the header holds no line break |
| AccessCodes.CsvLines | src/app/api/admin/exportAccessCodes/route.ts:25-28 | the export splits into the header line followed by the lines of the rows |
| Content.ContentQueries | src/app/api/admin/content/route.ts:18-27 | the pushes build exactly the listing query list |
| Content.ListingShape | src/app/api/admin/content/route.ts:18-27 | newest first, at most 50, then only the four optional filters |
| Content.TitleFilter | src/app/api/admin/content/route.ts:24 | the only filter on `title` is the search, present exactly when `search` is non-empty |
| Content.TypeFilter | src/app/api/admin/content/route.ts:25 | the only filter on `type` is the type equality, present exactly when `type` is non-empty |
| Content.YearFilter | src/app/api/admin/content/route.ts:26 | the only filter on `yearOfStudy` is the year as given, present exactly when it is non-empty |
| Content.ProgramFilter | src/app/api/admin/content/route.ts:27 | the only filter on `program` is the program equality, present exactly when it is non-empty |
| Content.ListingOnlyFilters | src/app/api/admin/content/route.ts:18-27 | every query after the first two filters on exactly one of the four attributes |
| Content.NormaliseYear | src/app/api/admin/content/route.ts:83 | the stored year holds no upper-case letter, and is as long as the input when that has no underscore (the dropped underscore by NormaliseYearDropsOneUnderscore) |
| Content.NormaliseYearSplit | src/app/api/admin/content/route.ts:83 | the first underscore splits the year; both halves are lower-cased and joined (`YEAR_1` becomes `year1`) |
| Content.CountLower | src/app/api/admin/content/route.ts:83 | lower-casing keeps the underscores |
| Content.NormaliseYearDropsOneUnderscore | src/app/api/admin/content/route.ts:83 | exactly one underscore goes and the length drops by one |
| Content.NormaliseYearFixed | src/app/api/admin/content/route.ts:83 | a year is stored unchanged exactly when it has no upper-case letter and no underscore |
| Content.CreateContent | src/app/api/admin/content/route.ts:42-98 | 400 unless every field and a file is present; upload first, then the record with the normalised year, `subject \|\| null` and the file id; a failed create leaves an orphan file; on success every record's file stays present |
| Content.DropFile | src/app/api/admin/deleteContent/route.ts:34 | deleting a known file removes exactly one file, and with unique ids that file is gone; every other file is kept and none is added; an unknown id changes nothing |
| Content.DeleteContent | src/app/api/admin/deleteContent/route.ts:6-39 | 400 unless both ids are given; the record goes first, and its failure stops the route; an unknown `contentId` is the store's not-found error, answered 500; a failed file deletion is swallowed |
| Content.DeleteKeepsFilesPresent | src/app/api/admin/deleteContent/route.ts:24-37 | deleting a record with its own unshared file keeps every other record's file present |
| Content.DeleteWithForeignFileId | src/app/api/admin/deleteContent/route.ts:24-37 | deleting with another record's file id leaves that record pointing at a missing file |
| Students.StudentQueries | src/app/api/admin/students/route.ts:16-25 | the pushes build exactly the student query list |
| Students.PagingDefaults | src/app/api/admin/students/route.ts:13-14 | an absent or empty limit reads as 10 and offset as 0 |
| Students.ListingShape | src/app/api/admin/students/route.ts:13-25 | limit, offset and newest first, with the defaults, then only the three optional filters |
| Students.NameFilter | src/app/api/admin/students/route.ts:23 | the only filter on `fullName` is the search, present exactly when `search` is non-empty |
| Students.YearFilter | src/app/api/admin/students/route.ts:24 | the only filter on `yearOfStudy` is the year equality, present exactly when it is non-empty |
| Students.ProgramFilter | src/app/api/admin/students/route.ts:25 | the only filter on `program` is the program equality, present exactly when it is non-empty |
| Students.ListingOnlyFilters | src/app/api/admin/students/route.ts:17-25 | every query after the first three filters on exactly one of the three attributes |
| Students.SubscriptionIndex | src/app/api/admin/students/route.ts:41 | each user maps to one of their own subscriptions |
| Students.LastWith | src/app/api/admin/students/route.ts:41 | the last match, with none after it, `None` exactly when nothing matches |
| Students.SubscriptionIndexLastWins | src/app/api/admin/students/route.ts:41 | the map holds a user exactly when a subscription is theirs, and then the last one |
| Students.Join | src/app/api/admin/students/route.ts:43-46 | one student per profile, in page order |
| Students.JoinPicksLastSubscription | src/app/api/admin/students/route.ts:41-46 | each student carries the user's last subscription, or none without one |
| Students.ListStudents | src/app/api/admin/students/route.ts:48-53 | either lookup's failure gives `status \|\| 500`; otherwise the joined page, with the store's total rather than the page length |
| Overview.ProfileItem | src/app/api/admin/overview/route.ts:34-39 | a profile entry: its id, creation time and "New student registered: " plus the name |
| Overview.ContentItemActivity | src/app/api/admin/overview/route.ts:40-45 | a content entry: its id, creation time and "New content added: " plus the title |
| Overview.Merged | src/app/api/admin/overview/route.ts:33-45 | the profile entries, then the content entries, each in store order |
| Overview.SortNewestFirst | src/app/api/admin/overview/route.ts:46 | the sort is a permutation of its input (newest first by SortNewestFirstCorrect, stable by SortNewestFirstStable) |
| Overview.InsertPermutes | src/app/api/admin/overview/route.ts:46 | insertion adds the entry and keeps all the others |
| Overview.ConsNewestFirst | src/app/api/admin/overview/route.ts:46 | an entry no older than a newest-first list can go in front of it |
| Overview.InsertNewestFirst | src/app/api/admin/overview/route.ts:46 | insertion keeps a list newest first |
| Overview.InsertAtTime | src/app/api/admin/overview/route.ts:46 | insertion puts the entry in front of the entries of its own time |
| Overview.SortNewestFirstCorrect | src/app/api/admin/overview/route.ts:46 | the sort is newest first and a permutation of its input |
| Overview.SortNewestFirstStable | src/app/api/admin/overview/route.ts:46 | the sort is stable: entries of equal time keep their order |
| Overview.AtTimeAppend | src/app/api/admin/overview/route.ts:46 | the entries of one time in a concatenation are those of the parts |
| Overview.RecentActivity | src/app/api/admin/overview/route.ts:46-54 | `slice(0, 10)` of the sorted feed keeps ten entries, or all of them when there are fewer |
| Overview.RecentActivityShape | src/app/api/admin/overview/route.ts:46-54 | at most ten entries, newest first, all from the merged entries, none dropped when there are at most ten |
| Overview.ProfilesFirstOnTies | src/app/api/admin/overview/route.ts:33-46 | on equal times, profile entries come before content entries, each group in store order |
| Overview.GetOverview | src/app/api/admin/overview/route.ts:6-73 | any failure gives `status \|\| 500`; when every lookup succeeds the reply is 200 with the five counts, the feed, the Active/Expired breakdown and the fixed Mon-Sun trend |
| Notifications.NotificationQueries | src/app/api/admin/notifications/route.ts:14-25 | the pushes build exactly the notification query list |
| Notifications.ListingShape | src/app/api/admin/notifications/route.ts:14-25 | newest first, at most 50, then only the two optional filters |
| Notifications.TypeFilter | src/app/api/admin/notifications/route.ts:19-21 | the only filter on `type` is the type equality, present exactly for a non-empty type other than "all" |
| Notifications.UnreadFilter | src/app/api/admin/notifications/route.ts:11-25 | the only filter on `read` is `read = false`, present exactly for `unreadOnly=true` |
| Notifications.ListingOnlyFilters | src/app/api/admin/notifications/route.ts:14-25 | every query after the first two filters on exactly one of `type` and `read` |
| Notifications.PostNotification | src/app/api/admin/notifications/route.ts:41-72 | 400 unless type, title and message are all given; otherwise one unread notification is appended |
| Notifications.PatchNotification | src/app/api/admin/notifications/route.ts:74-101 | 400 without an id; an unknown id is the store's not-found error, answered 500; otherwise `read` is set as sent (true by default) and `readAt` stamped, other notifications unchanged |
| Notifications.CountUnread | src/app/api/admin/notifications/mark-all-read/route.ts:13-17 | the unread count is at most the number of notifications |
| Notifications.BulkUpdated | src/app/api/admin/notifications/mark-all-read/route.ts:19-29 | a notification after the bulk update is unchanged or marked read at `now`; read ones are untouched, and an unread one is marked exactly when its write succeeds |
| Notifications.CountUnreadStep | src/app/api/admin/notifications/mark-all-read/route.ts:13-17 | extending a prefix by one adds one exactly for an unread notification |
| Notifications.MarkAllRead | src/app/api/admin/notifications/mark-all-read/route.ts:6-39 | every unread notification is updated unless its write failed, read ones are untouched; the reply is the unread count or the first failure |
| Notifications.UpdateUnread | src/app/api/admin/notifications/mark-all-read/route.ts:19-31 | the update loop marks each unread notification read unless its write fails, and returns the unread count and the first failure |
| Notifications.NoneUnreadAfter | src/app/api/admin/notifications/mark-all-read/route.ts:19-29 | without failures, nothing is left unread |
| Notifications.MarkAllReadTwice | src/app/api/admin/notifications/mark-all-read/route.ts:6-39 | a second call right after a successful one leaves the store as the first left it and reports 0 |
| Notify.PluralEnding | src/server/notifications.ts:58 | the ending is "s" exactly for more than one |
| Notify.NewStudentRegistration | src/server/notifications.ts:46-53 | an info notification titled "New Student Registration" linking to the student list |
| Notify.SubscriptionExpiring | src/server/notifications.ts:55-60 | a warning titled "Expiring Subscriptions" linking to the student list |
| Notify.SubscriptionExpired | src/server/notifications.ts:62-67 | a warning titled "Subscription Expired" whose message starts with the student's name |
| Notify.ContentUploaded | src/server/notifications.ts:69-74 | a success notification titled "Content Uploaded" linking to the content page |
| Notify.AccessCodeGenerated | src/server/notifications.ts:76-81 | a success notification titled "Access Code Generated" linking to the access codes |
| Notify.AccessCodeRedeemed | src/server/notifications.ts:83-88 | an info notification titled "Access Code Redeemed" whose message starts with the student's name |
| Notify.StudentApprovalPending | src/server/notifications.ts:90-95 | a warning titled "Pending Approvals" linking to the student list |
| Notify.LowStorageSpace | src/server/notifications.ts:97-102 | a warning titled "Low Storage Space" linking to the settings |
| Notify.NewStudentMessage | src/server/notifications.ts:46-53 | with the default count of 1 the message names the student; any other count leads the message and reads back |
| Notify.CountedPhraseReadsBack | src/server/notifications.ts:58 | the count of a counted phrase reads back, and the noun takes "s" exactly above one |
| Notify.CountedPhraseEnding | src/server/notifications.ts:58 | a counted phrase ends in "s" exactly above one |
| Notify.SubscriptionExpiringCount | src/server/notifications.ts:58 | the message starts with the count, and says "subscriptions" exactly above one |
| Notify.SubscriptionExpiringDays | src/server/notifications.ts:58 | the message ends in "days" exactly for more than one day |
| Notify.StudentApprovalPendingMessage | src/server/notifications.ts:93 | the message starts with the count, and says "students" exactly above one |
| Notify.CreateNotification | src/server/notifications.ts:17-40 | an unread notification with `targetUrl \|\| null` is appended; a failed create is rethrown and stores nothing |

## Left out

- Cookies, request parsing and response plumbing. The session cookie's value and the parsed body fields are inputs. A body that fails to parse as JSON or form data is not modelled.
- The backend clients. Each call's answer or failure is an input. The store's query semantics are not modelled: which documents a query list selects, page sizes, ordering by `$createdAt`, and total counts.
- Concurrency. `Promise.all` is modelled as its outcome: the writes all take effect or fail one by one, and the first failure is reported. Interleaving with other requests is not modelled, and neither is a concurrent change to the auth cache or the store.
- Clock, ids and randomness. `Date.now()`, `ID.unique()` and `Math.random().toString(36)` are inputs. The ISO-8601 rendering of a time is the `iso` parameter.
- Dates. A day is 24 hours; time zones and daylight saving, as the date library would apply them, are not modelled.
- Text.ParseInt: radix prefixes, exponents and numbers too large for a double are not modelled. NaN passed on to the store is `None`. Leading white space is only space, tab, line feed and carriage return; JavaScript also skips vertical tab, form feed, no-break space, the byte-order mark and the other Unicode space and line separators, so for example `parseInt` of a no-break space followed by `10` is 10 in the route but `None` in the model.
- Text.Lower and Text.Upper: only ASCII letters change case.
- Numbers in request bodies and in template arguments are integers. AccessCodes.GenerateCodes takes `quantity` and `durationDays` as integers: a fractional `quantity` such as 2.5, for which the route's loop runs three times and answers a count of 3, has no counterpart, and neither has a fractional `durationDays` stored as sent. Notify.LowStorageSpace takes `percentUsed` as an integer, so a message such as "87.5% full" has no counterpart.
- JSON null, undefined and an absent field are all `None`.
- Notifications.PatchNotification: for the same reason, a body with `read: null` is modelled as omitted and writes `true`; the route's `read !== undefined ? read : true` would write `null`.
- AccessCodes.GenerateCodes: because of that, a `prefix` sent as JSON `null` is modelled as absent and gets the default `NLC-`; the route's default parameter applies only to `undefined`, so it would build codes starting with `null`.
- Auth.AuthCache.AssertAdmin: one clock reading `now` serves both the freshness test and the timestamp written to the cache; the route reads the clock again after the two lookups, so the entry it writes is stamped slightly later than modelled.
- Logging, and the dashboard pages and components, are not part of this model.
- Content.CreateContent: the bytes of the uploaded file are not modelled; only its id and name are.
- AccessCodes.ExportCsv: the `Content-Disposition` file name, which carries the date, is not modelled.
- Notifications.MarkAllRead: the page size the store applies to the unread lookup is not modelled; every unread notification is fetched.
- Notifications.MarkAllRead: one clock reading `now` stamps every `readAt`; the route calls `new Date()` once per update, so notifications updated later in the same request carry slightly later times than modelled.
- Overview.GetOverview: the trend series is the route's fixed placeholder, with the key `users` written as the point's value.
- Subscriptions.Extend: one clock reading `now` stands for every `DateTime.now()` of the route (the end date, the start date and the update time on creation; the comparison, the base date and the update time on extension); the route reads the clock each time, so these times can differ by the moments between the readings.
- Subscriptions.ExtendAfterExpiry and Subscriptions.ExtensionsStack follow from the definitions of `Extended` and `ForceExpired` without further proof.
