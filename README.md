# SchoolServer remote-session core, modelled in Dafny

SchoolServer is a backend. It logs in to a school's web portal on behalf of a parent or
student and re-exposes the portal's data (marks, schedule, reports, mail) as a JSON REST
API. This project models the part of it that keeps track of remote sessions:

- **Session registry and data handlers** (`libtelco/rest-api/rest-api.go`). `RestAPI`
  holds `sessionsMap`, a map from the name of a local (cookie) session to a remote portal
  session. Every data handler follows one script. It drops the entry of a broken local
  session. It creates and logs in a missing remote session, storing it only after the
  login succeeds. It fetches once. After a stale-session error it binds the name to a
  freshly logged-in session and, without fetching again, sends what the failed fetch
  returned (or, in `GetChildrenMapHandler`, the new session's unfilled children list).
  Sign-in stores a session only after
  the permission check and the remote login succeed. Log-out deletes the entry. The
  permission decision is a pure function of the two database answers.
- **Retry-once mail handler** (`libtelco/rest-api/mail-delete-letter.go`). It recognises a
  stale session by the text "You was logged out from server" in the error. It then logs
  in again and calls `DeleteEmails` a second and last time.
- **Two session variants.** `libtelco/sessions/sessions.go` is the older one, with the
  first-type portal logic built in. It dispatches on the portal type and builds an
  n-day timetable in a loop. `libtelco/sessions/base.go` is the newer one. Each operation
  locks the session's mutex, dispatches on the portal type to the type-01 adapter and
  unlocks on every path. The two are modelled separately (`InlineSessions` and
  `Sessions`), because their signatures differ.

Everything outside the core is a parameter of the operation that uses it. That covers the
database, the cookie store, JSON decoding, the type-01 adapter, the first-type scrapers,
`incDate`, `getLocalSession` and `remoteRelogin`: each operation receives what they would
answer. A remote fetch is an abstract answer, so one `DataHandler` stands for the nine
data handlers (`GetReportStudentTotalMarksHandler` and its siblings, `GetChildrenMapHandler`,
`GetTasksAndMarksHandler`, `GetScheduleHandler`). `HandlerShape` records the two ways they differ.
Go errors are the datatype `Portal.Error`. Its `ErrLoggedOut` case is the single value of
restapi's package variable `errLoggedOut`. Every other error is a separately built value.
Likewise, `ServerType` is `FirstType` or another tag carrying its number.

Relogin followed by a second attempt exists only in `DeleteMailHandler` (and in a
commented-out block of `libtelco/rest-api/posts.go`). The nine data handlers rebind the
session after a stale error and, without fetching again, answer with whatever value the
failed fetch returned; `GetChildrenMapHandler` answers with the `ChildrenIDS` field of the
new session, which nothing has filled.

Modules: `Wrappers` (Option, Result), `Text` (`strings.Contains`, `%d`), `Portal` (shared
types, error texts, dispatch), `InlineSessions`, `Sessions`, `RestApi`, `MailDelete`.

## Model

| member | source | states |
|---|---|---|
| `Text.Contains` | libtelco/rest-api/mail-delete-letter.go:62 | `strings.Contains`: true exactly when some window of the text equals the pattern |
| `Text.Decimal` | libtelco/sessions/sessions.go:50 | the `%d` numeral: non-empty, only digits and a minus sign, which appears exactly for negative numbers |
| `Portal.ErrLoggedOutIsLoggedOut` | libtelco/rest-api/rest-api.go:38 | `errLoggedOut`'s own text passes the mail handler's staleness test |
| `Portal.UnknownServerTypeIsNotLoggedOut` | libtelco/sessions/base.go:46 | an "Unknown SchoolServer Type: %d" error is never taken for a stale session, whatever the number |
| `Portal.InvalidDaysNumberIsNotLoggedOut` | libtelco/sessions/sessions.go:79 | "Invalid days number" is never taken for a stale session |
| `Portal.Message` | libtelco/sessions/sessions.go:50 | `err.Error()`: the unknown-type text is the fixed prefix "Unknown SchoolServer Type: " followed by nothing but a numeral |
| `Portal.IsLoggedOut` | libtelco/rest-api/mail-delete-letter.go:62 | the mail handler's test: true exactly when the marker "You was logged out from server" occurs at some position of the error text |
| `Portal.Dispatch` | libtelco/sessions/base.go:81-87 | the switch on `Serv.Type`: the first-type answer for `FirstType`, otherwise an unknown-type error with the tag, never a staleness error |
| `Portal.DispatchFetched` | libtelco/sessions/base.go:76-88 | the same switch for an operation returning a (value, error) pair: the adapter's pair unchanged for `FirstType`, otherwise a nil value with an unknown-type error |
| `Portal.DispatchError` | libtelco/sessions/base.go:42-48 | the same switch for operations that return only an error |
| `InlineSessions.Collect` | libtelco/sessions/sessions.go:85-95 | what k rounds of the timetable loop collect: at most k days, exactly k when no error stopped them |
| `InlineSessions.CollectedDay` | libtelco/sessions/sessions.go:85-95 | day i collected is the day fetched for the date reached by applying `incDate` i times |
| `InlineSessions.CollectStopped` | libtelco/sessions/sessions.go:86-94 | an error stops the loop either at the day fetch after the last kept day (i days kept) or at `incDate` after it (i+1 days, which is all n in the last round) |
| `InlineSessions.UnknownTypeCollectsNothing` | libtelco/sessions/sessions.go:100-110 | on an unknown portal type the first round fails with the unknown-type error and no day |
| `InlineSessions.TimeTableOnSuccess` | libtelco/sessions/sessions.go:82-96 | on success the timetable has exactly n days, day i fetched for the i-th successor date |
| `InlineSessions.Session.constructor` | libtelco/sessions/sessions.go:31-37 | `NewSession` binds `Serv` to the given school and leaves the HTTP session nil |
| `InlineSessions.Session.Login` | libtelco/sessions/sessions.go:44-53 | the first-type login's answer for `FirstType`, otherwise an "Unknown SchoolServer Type" error |
| `InlineSessions.Session.GetDayTimeTable` | libtelco/sessions/sessions.go:100-110 | the first-type fetch of the given date, or an unknown-type error and no day |
| `InlineSessions.Session.GetTimeTable` | libtelco/sessions/sessions.go:75-97 | n outside 1..7 gives an error and no timetable; otherwise the timetable and error are those of n rounds of `Collect`, including the days kept before a failure |
| `InlineSessions.Session.GetWeekSchoolMarks` | libtelco/sessions/sessions.go:143-153 | first-type marks for the given date, or no marks and an unknown-type error |
| `InlineSessions.Session.GetTotalMarkReport` | libtelco/sessions/sessions.go:165-175 | the first-type report, or no report and an unknown-type error |
| `Sessions.Base.constructor` | libtelco/sessions/base.go:26-29 | the shared state holds the given HTTP session and school, with a free, unused mutex |
| `Sessions.Session.constructor` | libtelco/sessions/base.go:24-31 | `NewSession` wraps fresh state whose `Serv` is the given school, with a new HTTP session |
| `Sessions.Session.Login` | libtelco/sessions/base.go:38-49 | the lock is taken and released once and is free afterwards; the result is `t01.Login`'s answer exactly for `FirstType`, otherwise an unknown-type error |
| `Sessions.Session.GetChildrenMap` | libtelco/sessions/base.go:56-67 | the same locking and dispatch as `Login`, delegating to `t01.GetChildrenMap` |
| `Sessions.Session.GetLessonsMap` | libtelco/sessions/base.go:76-88 | the same locking; the type-01 (map, error) pair for exactly the given student ID, or a nil map and an unknown-type error |
| `RestApi.Stale` | libtelco/rest-api/rest-api.go:236 | the two staleness tests, `== errLoggedOut` and the text test of mail-delete-letter.go:62; whatever either recognises carries the logged-out marker, so the identity test never recognises more than the text test |
| `RestApi.PortalLogoutFailsIdentityTest` | libtelco/rest-api/rest-api.go:236 | a portal error with the logged-out text fails `== errLoggedOut` but passes the text test |
| `RestApi.PermissionAsWritten` | libtelco/rest-api/rest-api.go:135-155 | as written: 400 verdict iff the school lookup fails; true whenever the school has permission (user not consulted); a user lookup error whose text is not "record not found" fails with 500; otherwise the returned `userPerm`, because line 154 overwrites the not-found `true` |
| `RestApi.Permission` | libtelco/rest-api/rest-api.go:135-155 | as intended: the same, except that a user whose lookup error reads "record not found" is admitted |
| `RestApi.NewUserRefusedAsWritten` | libtelco/rest-api/rest-api.go:143-154 | a new user of a school without permission is refused as written and admitted by the intended decision |
| `RestApi.PermissionDiffersOnlyForNewUsers` | libtelco/rest-api/rest-api.go:141-155 | the two decisions differ only for a "record not found" answer carrying false |
| `RestApi.RecordNotFoundKnownByText` | libtelco/rest-api/rest-api.go:144-152 | "record not found" is recognised by the error's text alone: that text takes the not-found branch, any other text is a lookup failure |
| `RestApi.NewUserToldFalseAsWritten` | libtelco/rest-api/rest-api.go:141-157 | a new user of a school without permission is sent `false` as written and `true` under the intended rule |
| `RestApi.CheckPermissionReply` | libtelco/rest-api/rest-api.go:118-165 | under either decision rule: the decision is sent iff method and body are fine and the rule decides; a user-lookup failure other than "record not found" gives 500; every other refusal gives 400 |
| `RestApi.Create` | libtelco/rest-api/rest-api.go:216-229 | a creation step ends logged in exactly when the school lookup and the remote login both succeed |
| `RestApi.DataFlow` | libtelco/rest-api/rest-api.go:179-267 | the nine data handlers' script, under either staleness test: at most one fetch and two logins; a fetch only for an admitted request with a session; a body is sent only after a fetch; after a successful fetch it is what the fetch gave; after an error only if the error was stale and the relogin succeeded, and then it is the failed fetch's value, or the new session's unfilled state for `GetChildrenMapHandler` (line 864) |
| `RestApi.RejectedBeforeRemoteWork` | libtelco/rest-api/rest-api.go:182-212 | before the remote part, no login and no fetch; only a broken local session deletes its entry; replies are silent (wrong method) or 400 |
| `RestApi.CreationFailureAnswers500` | libtelco/rest-api/rest-api.go:214-229 | a missing remote session whose lookup or login fails gives 500, no fetch, and the map unchanged |
| `RestApi.StoredOnlyAfterLogin` | libtelco/rest-api/rest-api.go:214-252 | a session enters the map only after its own remote login succeeded, at creation or at relogin after a stale error |
| `RestApi.SuccessSendsFetchedValue` | libtelco/rest-api/rest-api.go:232-266 | a fetch without error sends its value (500 if encoding fails), after one fetch, with the entry as found or just created |
| `RestApi.StaleErrorRebinds` | libtelco/rest-api/rest-api.go:235-252 | a stale error rebinds the name to the freshly logged-in session and, without fetching again, sends the failed fetch's value, or the new session's state for a handler that sends session state (500 if encoding fails); a failed relogin answers 500, entry unchanged; one fetch either way |
| `RestApi.OtherErrorKeepsEntry` | libtelco/rest-api/rest-api.go:253-257 | any other fetch error gives 500 and leaves the entry as found or just created |
| `RestApi.IdentityTestNeverRelogs` | libtelco/rest-api/rest-api.go:236 | as written, when the error is not restapi's own `errLoggedOut`, the relogin answers change nothing in the outcome |
| `RestApi.StaleEntrySticksAsWritten` | libtelco/rest-api/rest-api.go:233-258 | as written, a portal logged-out error gives 500 and keeps the stale entry; the text test rebinds it and sends the relogin payload |
| `RestApi.ChildrenMapAfterReloginIsUnfetched` | libtelco/rest-api/rest-api.go:838-864 | with the text test, `GetChildrenMapHandler` answers a logged-out error by relogging and sending the new session's `ChildrenIDS`, which no `GetChildrenMap` filled, whatever the failed fetch had |
| `RestApi.SignInFlow` | libtelco/rest-api/rest-api.go:1114-1200 | `SignInHandler`'s script under either decision rule: the cookie is set exactly when a session is bound, carries the new name, and a binding needs a decoded POST, a granted permission and the store's new local session |
| `RestApi.SignInBindsOnlyWhenAdmitted` | libtelco/rest-api/rest-api.go:1129-1183 | sign-in binds a session iff the request is a decoded POST, permission is granted, the remote login succeeds and the store gives the new local session |
| `RestApi.SignInRefusals` | libtelco/rest-api/rest-api.go:1151-1166 | denied permission or a refused remote login gives 400, no cookie, no binding |
| `RestApi.SignInUpdateFailureKeepsBinding` | libtelco/rest-api/rest-api.go:1183-1198 | a failed `UpdateUser` gives 500 after the session is already bound and the cookie set |
| `RestApi.NewUserSignInRefusedAsWritten` | libtelco/rest-api/rest-api.go:1129-1156 | as written, a new user of a school without permission is refused with 400; under the intended rule the same request signs in whenever the remote login and the store succeed |
| `RestApi.RestApi.constructor` | libtelco/rest-api/rest-api.go:41-58 | `NewRestAPI` starts with an empty session map |
| `RestApi.RestApi.CreateRemote` | libtelco/rest-api/rest-api.go:216-229 | lookup, new session, login; a session comes back, fresh and bound to the looked-up school, exactly when `Create` ends logged in |
| `RestApi.RestApi.DataHandler` | libtelco/rest-api/rest-api.go:179-267 | the outcome is `DataFlow` under the text test; the map is unchanged, loses the name, or binds it to a fresh session of the stated school, as the outcome says; the fetch goes to the session bound to the name, or to the fresh session just created for the looked-up school |
| `RestApi.RestApi.SignIn` | libtelco/rest-api/rest-api.go:1114-1200 | the outcome is `SignInFlow` under the intended rule; the map gains exactly the new name, bound to a fresh session of the configured school with the request's credentials, or is unchanged |
| `RestApi.RestApi.LogOut` | libtelco/rest-api/rest-api.go:1072-1104 | a wrong method, a missing cookie or a store error leaves the map alone; otherwise 200, and the name is absent afterwards whatever it held |
| `MailDelete.DeleteMailHandler` | libtelco/rest-api/mail-delete-letter.go:17-88 | the reply, relogins and calls are `MailFlow`'s, each call on the session its target names and with the request's box and messages; once a remote session exists `DeleteEmails` is called; a logged-out first error with a successful relogin is retried; non-POST gives 405 first; no local session, a malformed body or no remote session gives no call; a first error without the marker gives 502 with no relogin after it; any second error gives 502; 200 exactly when an attempt succeeds |
| `MailDelete.MailFlow` | libtelco/rest-api/mail-delete-letter.go:17-88 | the handler's script: at most two `DeleteEmails` calls and two relogins, and calls only for a decoded POST with a local session |
| `MailDelete.FirstDeleteMade` | libtelco/rest-api/mail-delete-letter.go:49-60 | once the request is admitted and a remote session exists, `DeleteEmails` is called, on the map's session or else on the one `remoteRelogin` gave |
| `MailDelete.StaleFirstErrorRetried` | libtelco/rest-api/mail-delete-letter.go:61-77 | a logged-out first error followed by a successful relogin is retried exactly once, on the relogged session, and the second answer decides 200 or 502 |
| `MailDelete.RetryOnlyWhenStale` | libtelco/rest-api/mail-delete-letter.go:61-71 | a second call happens only after a logged-out first error and a successful relogin |
| `MailDelete.OkExactlyOnSuccess` | libtelco/rest-api/mail-delete-letter.go:60-87 | 200 exactly when the last attempt made succeeded |
| `MailDelete.KnownErrorsOnFirstDelete` | libtelco/rest-api/mail-delete-letter.go:62-83 | `errLoggedOut` as the first answer is retried; an "Unknown SchoolServer Type" first answer is final and gives 502 |

## Findings

| source | as written | input that shows it | evidently intended | confidence | as-written member | corrected member |
|---|---|---|---|---|---|---|
| libtelco/rest-api/rest-api.go:236 | the data handlers detect a stale session by `err == errLoggedOut`. Go compares the identity of the error values. `errLoggedOut` is an unexported variable of package restapi, and the sessions package, which restapi imports, cannot return it. The same test is at lines 337, 428, 524, 622, 722, 841, 941 and 1038. | the first fetch fails with a portal error whose text is "You was logged out from server" | recognise the error by its text, as mail-delete-letter.go:62 does, and rebind the session | not executed; high | `RestApi.StaleEntrySticksAsWritten` | `RestApi.RestApi.DataHandler` |
| libtelco/rest-api/rest-api.go:154 | `perm = userPerm` runs after the "record not found" branch has set `perm = true`, so that `true` is always overwritten. Line 1149 does the same in sign-in. | the school has no permission; `GetUserPermission` answers `false` with "record not found" | admit the new user, as the comment on line 146 says | not executed; medium (depends on `GetUserPermission` answering false when the record is missing) | `RestApi.PermissionAsWritten` | `RestApi.Permission` |

The rest of the model uses the corrected members. `DataHandler` uses the text test, and
`SignIn` uses `Permission`. `DataFlow` takes the staleness test as a parameter, and
`CheckPermissionReply` and `SignInFlow` take the permission rule as one, so the lemmas
about them hold for the code both as written and as corrected.

Correcting the staleness test makes the relogin branch reachable, and with it one more
oddity: `GetChildrenMapHandler` then answers 200 with the `ChildrenIDS` of the new session,
which no `GetChildrenMap` has filled (`RestApi.ChildrenMapAfterReloginIsUnfetched`). The
other handlers answer with the value the failed fetch returned. No corrected retry is
modelled for the data handlers, so this is recorded here and not as a finding.

## Left out

- HTTP plumbing is left out: request methods, cookies, the gorilla session store, JSON
  decode and encode, logging. Each survives only as a boolean answer. The 400 reply's
  "malformed data" text in the mail handler is not modelled.
- The database is left out (`GetUserAuthData`, `GetSchoolPermission`, `GetUserPermission`,
  `UpdateUser`). Handlers receive its answers as values.
- `getLocalSession` and `remoteRelogin` are not part of this model. The mail handler
  receives what they return (`ByHelper` stands for whatever they answered).
- `MailDelete.DeleteMailHandler`: does not model what `remoteRelogin` does to
  `sessionsMap`, because that function is not part of this model. The handler's own
  body never writes the map.
- The type-01 adapter, the first-type scrapers (`firstTypeLogin`, `getDayTimeTableFirst`,
  `getSchoolMarksFirst`, `getTotalMarkReportFirst`) and `incDate` are not part of this
  model. Their answers are parameters. Where the order of calls is visible, they are
  functions of the argument (the date, the student ID), so one date always gets the same
  answer. What they do to the session's cookies and tokens is not modelled.
- `Sessions.Session.GetChildrenMap`: does not model `t01.GetChildrenMap` filling
  `ChildrenIDS`. `GetChildrenMapHandler`'s payload after a successful fetch is the
  abstract fetch result. After a relogin it is `freshState`, the value a new session's
  `ChildrenIDS` holds before any fetch, a parameter because the session struct of
  `libtelco/sessions/session` is not part of this model.
- The session operations the data handlers call (a three-argument `GetTimeTable`,
  `GetTotalMarkReport(id)`, `GetWeekSchoolMarks(week, id)` and the others) are not part
  of this model. Their answer is a parameter: a value, possibly nil, and an error, so
  what a handler sends after a relogin is whatever value came with the stale error.
- `Sessions.Session.GetLessonsMap`: generic in the map's type, because `dt.LessonsMap` is
  not part of this model.
- `RestApi.RestApi.DataHandler`: the remote fetch is the abstract answer `b.fetch`. The
  method records which session it goes to, but does not call an operation on it.
- Concurrency is left out. The per-session mutex is a held flag with a history of
  acquisitions and releases for one sequential caller. Interleavings and the
  last-writer-wins race on `sessionsMap` are not modelled.
- `time.Now` is left out (the default week at rest-api.go:935-937, today's date at 1034,
  `lastRequest`). So are the md5 session naming (the new name is a parameter) and the
  never-failing `hasher.Write` branch at lines 1170-1174.
- `config.Schools[rReq.ID-1]` at line 1157 is a parameter, so an out-of-range id (a panic
  in Go) is not modelled.
- The numeric value of `cp.FirstType` is not part of this model. `ServerType` only tells
  `FirstType` apart from any other tag.
- The older session's `mu` and `lastRequest` fields are not modelled: nothing in
  sessions.go uses them.
- `GetSchoolListHandler`, `ErrorHandler`, `Handler` and `BindHandlers` are left out: they
  do not touch remote sessions.
- `GetPostsHandler` (`libtelco/rest-api/posts.go`) is left out: its fetch and retry are
  commented out, and it answers an empty list. `libtelco/server/server.go` is startup
  wiring and is left out too.
- The `json.Marshal` failure branch of `CheckPermissionHandler` (rest-api.go:158-162) is
  not modelled: a response holding one boolean always encodes.
