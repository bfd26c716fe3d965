# dmhpss-ts access rules, actions and triage in Dafny

dmhpss-ts is a student mental-wellness web application. This project models its
decision logic and proves properties of it:

- **who may reach what**, in four places that deliberately differ:
  - the route middleware, with its demo cookie, login redirect and role checks by path prefix;
  - the server-side `requireRole` guard;
  - the exact-match `RoleGuard` component;
  - the role-filtered sidebar;
- **the server actions** (moods, posts, comments, reports, quiz results, and the
  admin, case and moderation actions) as methods of a `Store` class over in-memory
  tables, with each database write's outcome passed in as a boolean;
- **the pure classifiers** of the counselor case board (keyword severity, the
  waiting-time label, the status-to-column mapping and the partition of posts into
  columns) and the post-versus-comment target of the moderation queue;
- **the client state** of the moderation queue (its loading marker) and of the mood
  tracker (selection, note, dialog, submitting flag), as small classes whose
  handlers are split at their `await`.

Modules:

- `Wrappers`: `Option` and JavaScript truthiness of nullable strings.
- `Seqs`: `Filter` and subsequences.
- `Strings`:
  - `includes`, `toLowerCase` and `trim`;
  - decimal rendering of numbers;
  - `join`.
- `Types`: the domain records and enumerations.
- `Auth`, `Middleware`, `RoleGuard`, `AppSidebar`: the four access rules.
- `Actions`: the store and its actions.
- `CaseBoard`, `ReportQueue`, `MoodTracker`: the three feature components.

Two behaviours of the code are worth stating up front:

- the middleware admits an admin to `/counselor` pages, but `RoleGuard` does not;
- an action called by a logged-out visitor runs as the fixed fallback user
  `11111111-1111-1111-1111-111111111111`.

## Model

| member | source | states |
|---|---|---|
| Types.ParseRole | dmhpss-ts/types/index.ts:1 | a role column parses to role `r` exactly when it is `r`'s name; the four names are the only roles |
| Types.RoleRoundTrip | dmhpss-ts/types/index.ts:1 | naming a role and parsing the name gives the role back, and a parsed name is the role's name |
| Types.RoleNameInjective | dmhpss-ts/types/index.ts:1 | distinct roles have distinct names |
| Types.ParseCaseStatus | dmhpss-ts/types/index.ts:21 | a case status is exactly one of open, pending, resolved |
| Types.CaseStatusRoundTrip | dmhpss-ts/types/index.ts:21 | case status names and parsing are inverse |
| Types.ParseReportStatus | dmhpss-ts/types/index.ts:47 | a report status is exactly one of pending, reviewed, resolved |
| Types.ReportStatusRoundTrip | dmhpss-ts/types/index.ts:47 | report status names and parsing are inverse |
| Auth.EffectiveUserId | dmhpss-ts/utils/auth-helpers.ts:34 | the signed-in user's id, or the fixed fallback id when nobody is signed in |
| Auth.GetUserRole | dmhpss-ts/utils/auth-helpers.ts:21-30 | no role exactly when there is no profile or its role is empty; otherwise the profile's role |
| Auth.RoleNames | dmhpss-ts/utils/auth-helpers.ts:41 | the allowed roles' names, in order |
| Auth.RequireRole | dmhpss-ts/utils/auth-helpers.ts:32-50 | authorized iff the looked-up role is present and among the allowed roles; then it carries the (possibly fallback) user and a role that is allowed and is the looked-up one; otherwise the error is exactly `Forbidden: Requires one of [` + the names joined by `, ` + `]` |
| Auth.NoRoleIsForbidden | dmhpss-ts/utils/auth-helpers.ts:38 | a missing or empty role is always forbidden |
| Auth.EmptyAllowedIsForbidden | dmhpss-ts/utils/auth-helpers.ts:38-42 | an empty allowed list denies everyone, with the message `Forbidden: Requires one of []` |
| Auth.LoggedOutIsFallback | dmhpss-ts/utils/auth-helpers.ts:33-36 | a logged-out caller is judged exactly as the fallback user would be |
| Auth.ForbiddenMessageShape | dmhpss-ts/utils/auth-helpers.ts:41 | the error text starts with `Forbidden: Requires one of [` and ends with `]`; an empty list gives `[]`; a non-empty list is named from its first role on |
| Strings.Join | dmhpss-ts/utils/auth-helpers.ts:41 | `join` of no names is empty and of one name is that name |
| Strings.JoinStartsWithFirst | dmhpss-ts/utils/auth-helpers.ts:41 | a join starts with its first element, followed by the separator when more elements follow |
| Auth.AdminOnlyMessage | dmhpss-ts/utils/auth-helpers.ts:39-42 | the error text of the admin-only actions is `Forbidden: Requires one of [admin]` |
| Auth.ModerationMessage | dmhpss-ts/utils/auth-helpers.ts:39-42 | the error text of the moderation actions is `Forbidden: Requires one of [moderator, admin]` |
| Auth.CaseWorkerMessage | dmhpss-ts/utils/auth-helpers.ts:39-42 | the error text of the case action is `Forbidden: Requires one of [counselor, moderator, admin]` |
| Middleware.Gate | dmhpss-ts/middleware.ts:40-93 | the answer is to continue, go to `/login` or go to `/`; the demo cookie always continues; `/login` is chosen exactly for an anonymous, non-demo request under either gated prefix |
| Middleware.CounselorGate | dmhpss-ts/middleware.ts:70-93 | the second block continues off the `/counselor` prefix and in demo mode, and sends to `/login` exactly an anonymous, non-demo request under that prefix |
| Middleware.RequiredRoles | dmhpss-ts/middleware.ts:46-90 | a gated prefix always admits some role, and admin in particular |
| Middleware.GateMatchesRequiredRoles | dmhpss-ts/middleware.ts:40-93 | the gate continues on an ungated path or in demo mode, sends an anonymous visitor to `/login`, admits a user whose profile role is among the prefix's roles, and sends anyone else to `/` |
| Middleware.PrefixesExclusive | dmhpss-ts/middleware.ts:46-71 | no path starts with both `/admin` and `/counselor`, so the admin block's fall-through never reaches the counselor checks |
| Middleware.DemoBypassesGate | dmhpss-ts/middleware.ts:43-72 | with the demo cookie equal to "true" every request passes, whatever the user or role |
| Middleware.AnonymousGatedGoesToLogin | dmhpss-ts/middleware.ts:52-77 | a non-demo request to a gated prefix without a user is redirected to `/login` |
| Middleware.AdminPathAdmitsOnlyAdmin | dmhpss-ts/middleware.ts:64-67 | on `/admin*` a signed-in user passes iff a profile exists with role admin |
| Middleware.CounselorPathAdmitsCounselorAndAdmin | dmhpss-ts/middleware.ts:86-90 | on `/counselor*` a signed-in user passes iff a profile exists with role counselor or admin |
| Middleware.UngatedPathContinues | dmhpss-ts/middleware.ts:93 | a path with neither prefix always passes |
| Middleware.PrefixExamples | dmhpss-ts/middleware.ts:46-93 | `/moderator` is ungated; `/administrator` is gated as admin by the raw prefix test; an admin passes on `/counselor/cases` |
| RoleGuard.Decide | dmhpss-ts/components/RoleGuard.tsx:17-41 | the result is the log-in prompt exactly when there is no user; a signed-in user who is not granted is refused naming the required role; access is granted iff the profile exists and its role equals the required role exactly; granted content is the children unchanged; a refusal names the required role |
| RoleGuard.Message | dmhpss-ts/components/RoleGuard.tsx:17-41 | the text is empty only for granted access, and a refusal's text names the required role |
| RoleGuard.NoProfileIsRefused | dmhpss-ts/components/RoleGuard.tsx:32-39 | a user without a profile is refused for insufficient permissions |
| RoleGuard.AdminPassesGateButNotCounselorGuard | dmhpss-ts/components/RoleGuard.tsx:32 | an admin passes the middleware on `/counselor` but is refused by a counselor guard |
| RoleGuard.GrantedRoleIsRequired | dmhpss-ts/components/RoleGuard.tsx:32 | a user can be granted access by guards for at most one role |
| AppSidebar.VisibleItems | dmhpss-ts/components/AppSidebar.tsx:66 | the visible items are a subsequence of the table, so they keep its order |
| AppSidebar.VisibleItemsAreFiltered | dmhpss-ts/components/AppSidebar.tsx:66 | an item is visible iff it is in the table and lists the role |
| AppSidebar.MenuOf | dmhpss-ts/components/AppSidebar.tsx:24-66 | each role's menu is exactly the expected list, in table order |
| AppSidebar.ItemVisibility | dmhpss-ts/components/AppSidebar.tsx:24-60 | Home and Peer Support for every role; Messages iff user or counselor; Counselor Dashboard iff counselor or admin; Moderator Queue iff moderator or admin; Admin Console iff admin |
| AppSidebar.AtMostOneActive | dmhpss-ts/components/AppSidebar.tsx:83 | at most one visible item is highlighted for any pathname |
| AppSidebar.ActiveIsExact | dmhpss-ts/components/AppSidebar.tsx:83 | highlighting is exact equality, so `/student/quiz` does not highlight Home |
| Strings.Contains | dmhpss-ts/components/features/CaseBoard.tsx:19-20 | `includes` is true iff the fragment occurs at some position |
| Strings.ToLower | dmhpss-ts/components/features/CaseBoard.tsx:18 | lower-casing keeps the length, maps each character, and leaves no upper-case ASCII letter |
| Strings.Trim | dmhpss-ts/app/actions.ts:175 | trimming never lengthens the text, and a non-empty result neither starts nor ends with whitespace |
| Strings.TrimEmptyIffBlank | dmhpss-ts/app/actions.ts:175 | trimming gives the empty string iff every character is whitespace |
| Strings.ParseNatToString | dmhpss-ts/components/features/CaseBoard.tsx:28-29 | the decimal rendering of a count reads back as the same count |
| Strings.NatToStringInjective | dmhpss-ts/components/features/CaseBoard.tsx:28-29 | different counts give different labels |
| CaseBoard.GetSeverity | dmhpss-ts/components/features/CaseBoard.tsx:17-22 | High iff the lower-cased content contains die, suicide, kill or harm; Medium iff not High and it contains hurt, pain or sad; Low otherwise |
| CaseBoard.HighSeverityExamples | dmhpss-ts/components/features/CaseBoard.tsx:18-19 | an upper-case keyword matches after lower-casing, and a keyword inside a word ("diet") counts |
| CaseBoard.MediumSeverityExample | dmhpss-ts/components/features/CaseBoard.tsx:18-20 | "Sad" is Medium |
| CaseBoard.LowSeverityExample | dmhpss-ts/components/features/CaseBoard.tsx:21 | a text without keywords ("ok") is Low |
| CaseBoard.WaitingLabel | dmhpss-ts/components/features/CaseBoard.tsx:24-30 | every label ends in ` waiting`; it is `< 1h waiting` exactly when fewer than one whole hour has elapsed, and otherwise starts with a digit |
| CaseBoard.WaitingLabelByElapsed | dmhpss-ts/components/features/CaseBoard.tsx:24-30 | `< 1h waiting` when under an hour has elapsed (or the time is negative); `{h}h waiting` below a day; otherwise `{d}d waiting` with d the whole days elapsed |
| CaseBoard.MapStatusToColumn | dmhpss-ts/components/features/CaseBoard.tsx:32-37 | pending goes to In Progress, resolved to Resolved, and every other value (open included) to New |
| CaseBoard.ColumnOfEachStatus | dmhpss-ts/components/features/CaseBoard.tsx:32-35 | open, pending and resolved go to New, In Progress and Resolved |
| CaseBoard.ColumnPosts | dmhpss-ts/components/features/CaseBoard.tsx:45-46 | every post of a column is an input post whose status maps to that column |
| CaseBoard.Board | dmhpss-ts/components/features/CaseBoard.tsx:41-46 | the board has one list per column title, and a post is in a column's list iff it is an input post whose status maps to that column |
| CaseBoard.BoardPartitionsPosts | dmhpss-ts/components/features/CaseBoard.tsx:41-46 | the three columns together hold every post exactly as often as the input does, and each column keeps the input order |
| CaseBoard.PostInExactlyOneColumn | dmhpss-ts/components/features/CaseBoard.tsx:45-46 | a post of the input appears in a column iff that is its status's column |
| ReportQueue.DeleteType | dmhpss-ts/components/features/ReportQueue.tsx:39-40 | the delete type names the column the content id is taken from: the post id for a post, the comment id for a comment |
| ReportQueue.ContentId | dmhpss-ts/components/features/ReportQueue.tsx:40 | the content id is the post id or the comment id, and it is truthy iff one of them is |
| ReportQueue.TypeLabel | dmhpss-ts/components/features/ReportQueue.tsx:77 | the label is Post or Comment, and it is Post iff the delete type is a post |
| ReportQueue.DeleteRequest | dmhpss-ts/components/features/ReportQueue.tsx:39-44 | a delete is issued iff the report names a post or a comment; the post wins when both are set |
| ReportQueue.LabelAgreesWithTarget | dmhpss-ts/components/features/ReportQueue.tsx:77 | the Post/Comment label agrees with the delete type |
| ReportQueue.Queue.constructor | dmhpss-ts/components/features/ReportQueue.tsx:25 | nothing is loading at first |
| ReportQueue.Queue.BeginDismiss | dmhpss-ts/components/features/ReportQueue.tsx:27-29 | the row is marked loading and the dismiss call is made |
| ReportQueue.Queue.BeginDelete | dmhpss-ts/components/features/ReportQueue.tsx:35-44 | a declined confirmation changes nothing and calls nothing; otherwise the row is marked loading and the derived delete request is made, if any |
| ReportQueue.Queue.CallReturned | dmhpss-ts/components/features/ReportQueue.tsx:27-48 | the loading marker is cleared, so no row's buttons are disabled |
| ReportQueue.StuckRowExample | dmhpss-ts/components/features/ReportQueue.tsx:38-42 | a confirmed delete of a report with neither id leaves that row's buttons disabled |
| MoodTracker.RatingOf | dmhpss-ts/components/features/MoodTracker.tsx:45-51 | a mood has a rating iff it is one of the five buttons' values, and the rating is its 1-based position (angry 1 … excited 5) |
| MoodTracker.MoodOf | dmhpss-ts/components/features/MoodTracker.tsx:19-25 | every rating names a mood of the card |
| MoodTracker.RatingRoundTrip | dmhpss-ts/components/features/MoodTracker.tsx:19-51 | the mood of a rating is rated back to the same rating |
| MoodTracker.MoodRoundTrip | dmhpss-ts/components/features/MoodTracker.tsx:19-51 | a button's value, rated and named again, is the same value |
| MoodTracker.RatingsFollowButtonOrder | dmhpss-ts/components/features/MoodTracker.tsx:19-51 | every button has a rating, and ratings strictly increase from left to right |
| MoodTracker.Tracker.constructor | dmhpss-ts/components/features/MoodTracker.tsx:30-33 | no selection, empty note, dialog closed, not submitting |
| MoodTracker.Tracker.SaveCaption | dmhpss-ts/components/features/MoodTracker.tsx:105-106 | the save button reads "Saving..." exactly while it is disabled, and "Save Log" exactly while it is enabled |
| MoodTracker.Tracker.HandleMoodClick | dmhpss-ts/components/features/MoodTracker.tsx:35-38 | the clicked mood becomes the selection and the dialog opens; nothing else changes |
| MoodTracker.Tracker.SetNote | dmhpss-ts/components/features/MoodTracker.tsx:98 | typing replaces the note; nothing else changes |
| MoodTracker.Tracker.CloseDialog | dmhpss-ts/components/features/MoodTracker.tsx:102 | Skip closes the dialog and keeps the selection and the note |
| MoodTracker.Tracker.BeginSubmit | dmhpss-ts/components/features/MoodTracker.tsx:40-53 | without a selection nothing happens; otherwise the tracker is submitting and calls `saveMood` with the mood's rating and the note |
| MoodTracker.Tracker.SubmitReturned | dmhpss-ts/components/features/MoodTracker.tsx:55-64 | the tracker stops submitting and the dialog closes whatever the outcome; success clears the note and the selection, failure keeps both; the alert text matches the outcome |
| MoodTracker.ClickAndSubmit | dmhpss-ts/components/features/MoodTracker.tsx:35-53 | clicking any button and submitting asks to save that button's rating, 1 to 5, with the current note |
| Actions.StoredNote | dmhpss-ts/app/actions.ts:17 | a missing or empty note is stored as null; any other note is stored as given |
| Actions.AwardPoints | dmhpss-ts/app/actions.ts:26 | only the given user's total changes, and it grows by the amount (from 0 for a new user) |
| Actions.WithRole | dmhpss-ts/app/actions.ts:39-42 | only the role field of the one profile with that id changes |
| Actions.WithCaseStatus | dmhpss-ts/app/actions.ts:80-83 | only the case status of the one post with that id changes |
| Actions.WithResolution | dmhpss-ts/app/actions.ts:209-212 | only the one report with that id changes: it becomes resolved with the given note |
| Actions.NewReport | dmhpss-ts/app/actions.ts:124-133 | `post_id` is set iff the target is a post, and `comment_id` otherwise, never both, each to the target id; a new report is pending |
| Actions.Store.RoleTable | dmhpss-ts/utils/auth-helpers.ts:23-29 | the role column of each profile, by id |
| Actions.Store.SaveMood | dmhpss-ts/app/actions.ts:7-31 | after a successful insert the log is appended and 10 points are awarded when the points call succeeds; after a failed insert the error is `Failed to save mood` and nothing changes; no one's points ever drop |
| Actions.Store.UpdateUserRole | dmhpss-ts/app/actions.ts:33-52 | admins only: a forbidden caller gets the guard's error and nothing changes; a failed write gets `Failed to update role` and nothing changes; otherwise only that profile's role changes |
| Actions.Store.DeleteUser | dmhpss-ts/app/actions.ts:54-72 | admins only: forbidden and failed calls change nothing; otherwise only that profile is removed |
| Actions.Store.UpdateCaseStatus | dmhpss-ts/app/actions.ts:74-94 | counselors, moderators and admins: forbidden and failed calls change nothing; otherwise only that post's case status changes |
| Actions.Store.AddComment | dmhpss-ts/app/actions.ts:96-117 | a successful insert adds exactly the new comment, by the caller or the fallback user; a failure gets `Failed to add comment` and nothing changes |
| Actions.Store.CreateReport | dmhpss-ts/app/actions.ts:119-146 | a successful insert adds exactly the new report, targeting the post or the comment; a failure gets `Failed to create report` and nothing changes |
| Actions.FilingKeepsTargets | dmhpss-ts/app/actions.ts:129-133 | if every report names exactly one of a post and a comment, that still holds after a report is filed |
| Actions.ResolutionKeepsTargets | dmhpss-ts/app/actions.ts:209-246 | resolving a report, by dismissal or after a deletion, keeps every report naming exactly one target |
| Actions.Store.SaveQuizResult | dmhpss-ts/app/actions.ts:148-168 | a successful insert appends the result; a failure gets `Failed to save quiz result` and nothing changes |
| Actions.Store.CreatePost | dmhpss-ts/app/actions.ts:170-197 | whitespace-only content gets `Content cannot be empty` before any write; otherwise a successful insert adds an open post and awards 5 points when the points call succeeds; a failed insert changes nothing; no one's points ever drop |
| Actions.Store.DismissReport | dmhpss-ts/app/actions.ts:203-222 | moderators and admins: forbidden and failed calls change nothing (the failure text is `Failed`); otherwise only that report changes, to resolved with "Ignored by moderator", and no post or comment is touched |
| Actions.Store.DeleteReportedContent | dmhpss-ts/app/actions.ts:224-251 | moderators and admins: a forbidden caller changes nothing; a failed delete gets `Failed to delete content` and leaves everything, the report included, untouched; otherwise the post or comment is removed by type, and the report becomes resolved with "Content deleted by moderator" when the second write succeeds |
| Actions.Store.RemoveContent | dmhpss-ts/app/actions.ts:230-246 | only the named post or comment is deleted, and only that report is resolved, and only when the second write succeeds |

## Left out

- Database and authentication I/O is not modelled. That covers the Supabase client, `auth.getUser`, the cookie adapter of the middleware, row-level security, cascades on delete and the `update_user_points` procedure's body. The store is a set of maps, and each write's success is an input flag.
- Actions.Store.SaveMood: a rating outside 1..5 is treated as a failed insert. The action passes any number to the database (its parameter is declared a `number`), and the model assumes the database rejects such a rating; no schema is part of this model.
- Actions.Store.CreateReport: a new report is pending. The action sends no status, so this relies on the table's default, which the moderator page's filter on `pending` presupposes.
- Actions.Store: inserts take the new row's id (and a post's creation time) as inputs, and an insert whose id is already present fails. Titles, `created_at` fields other than a post's, and generated row ids beyond that are not modelled.
- `revalidatePath`, `redirect`, `NextResponse`, `router.refresh`, `alert`, `confirm` and `console` are side effects with no stated behaviour and are not modelled. A redirect is a returned decision. A confirmation is an input flag. The mood tracker's alert is the text `MoodTracker.Tracker.SubmitReturned` returns. The moderation queue's `alert(result.error)` and `router.refresh()` after a returned call are not modelled: `ReportQueue.Queue.CallReturned` takes no result.
- Dates are not modelled: `new Date`, `Date.now` and locale formatting. The case board's "now" and creation time are integer milliseconds supplied by the caller.
- Strings.ToLower: only ASCII letters are lower-cased, unlike JavaScript's full Unicode `toLowerCase`.
- Strings.IsJsWhitespace: line terminators and the Unicode space separators listed by ECMAScript are covered, but the model follows no Unicode version.
- The analytics bar heights and the progress percentage are floating point, and are not modelled.
- Presentational pages and components without logic are not modelled: the landing, about, messages and peer-support pages, the counselor dashboard client, the logo and the motivational tip.
- The disabled send and like handlers of the chat window and the like button are not modelled.
- The form components only repeat the trim guard or call the modelled actions: the post and comment forms, the concern page, the report button and the user management table.
- Streak counts and weekly activity data come from pages that are not part of this model.
- ReportQueue.Queue.CallReturned: a server action whose promise rejects is not modelled. The handlers catch no exception, so after a rejection the later setters never run and the row's buttons stay disabled; the model only covers a call that returns.
- MoodTracker.Tracker.SubmitReturned: likewise, a rejected `saveMood` call is not modelled. The tracker would then stay submitting with the dialog open; the model only covers a call that returns.
- React rendering and concurrency are not modelled. The handlers' `await` is a split into a begin method and a method for the returned result, and interleavings of several pending calls are not modelled.
