# Repository sync dashboard: the stateable logic, in Dafny

The dashboard mirrors Git repositories through a serverless function that talks to GitHub, logs members in against a hosted auth service, and audits web pages. Almost all of it is glue around remote services. This project models the small pieces of sequential logic inside that glue, with every answer from GitHub, the database, the auth SDK or `fetch` turned into an input value:

- `GitOperations` — the `git-operations` edge function:
  - the GitHub URL parser, modelled as a leftmost search for `github\.com\/([^\/]+)\/([^\/\.]+)`;
  - the get-then-update-or-create reference step;
  - the push and `getLastCommit` branches;
  - the response shapes.
- `AuthUtils` — the member-login helpers:
  - the credentials derived from a member number;
  - the three-attempt member lookup;
  - recovery from a sign-in error.
- `MemberUtils` — the two database writes made on a first login, over a `Tables` object holding the `members` and `user_roles` tables.
- `LoginForm` — the login hook:
  - the blank-number guard;
  - the sign-in, and the sign-up fallback after invalid credentials;
  - the session-polling loop;
  - the ordered error classifier;
  - the hook's `loading`, toast and navigation state.
- `AuthSession` — the session hook:
  - transitions on auth events;
  - sign-out;
  - auth-error handling;
  - the mount and cleanup of the listener.
- `ProtectedRoutes` — the route table, the redirects on auth events, and the navigation-error toast filter.
- `WebsiteAnalyzer` and `WebTools` — the six audit metrics and the page state of the web tools (analysis, log lines, monitoring ticks).
- `ConsoleOutput` — the text "Copy Logs" writes to the clipboard, the entry colours and the `copied` flag.
- `MetricsHighcharts` and `MetricsP5` — the data behind the pie chart, and the circles the p5 sketch builds.
- `StorageMock` — the in-memory `localStorage`/`sessionStorage` used by the test setup. It is a plain object, so its own keys are enumerated in `Object.keys` order.
- `Common` holds `Option`/`Result` and the string built-ins the source relies on: `includes`, `replace` of the first occurrence, ASCII case mapping, `join`, `split` and number formatting.

Where the source changes state step by step, the model does too:
- a `class` whose methods carry `modifies` clauses;
- `while` loops with invariants (`verifyMember`, the session polling, `setup`, `clear`).

Each such method is proved against a function that states the outcome. The properties of that function are proved as lemmas.

## Model

| member | source | states |
|---|---|---|
| GitOperations.RunEnd | supabase/functions/git-operations/index.ts:81 | a greedy `[^…]+` run ends at the first stop character or at the end of the string; every character before that end is outside the stop set |
| GitOperations.RunEndUnique | supabase/functions/git-operations/index.ts:81 | any end point with those two properties is the one `RunEnd` finds |
| GitOperations.MatchAt | supabase/functions/git-operations/index.ts:81-82 | a match at a position has a non-empty owner without '/' and a non-empty repository without '/' or '.' |
| GitOperations.MatchAtSound | supabase/functions/git-operations/index.ts:81-82 | what `MatchAt` reports is a match of the pattern at that position, and its second group cannot be extended |
| GitOperations.MatchAtComplete | supabase/functions/git-operations/index.ts:81-82 | wherever the pattern matches, `MatchAt` reports a match with the same first group and a second group that extends the given one |
| GitOperations.FindMatch | supabase/functions/git-operations/index.ts:82 | the result is the leftmost matching position at or after `from`; none is returned only when no position matches |
| GitOperations.GitSuffixStripIsNoOp | supabase/functions/git-operations/index.ts:90 | `.replace('.git', '')` leaves a repository group unchanged |
| GitOperations.ParseGitHubUrl | supabase/functions/git-operations/index.ts:79-96 | failure carries "Invalid GitHub URL: " followed by the URL; success yields a valid owner and repository |
| GitOperations.ParseIsLeftmostMatch | supabase/functions/git-operations/index.ts:81-91 | parsing fails iff no position matches; otherwise the result is the match at the leftmost matching position |
| GitOperations.ParseSucceedsIff | supabase/functions/git-operations/index.ts:81-86 | parsing succeeds iff "github.com/", a non-empty run without '/', a '/' and a character that is neither '/' nor '.' occur in the URL |
| GitOperations.RoundTrip | supabase/functions/git-operations/index.ts:79-91 | prefix + "github.com/" + owner + "/" + repo + tail parses back to (owner, repo), for any tail starting with '/' or '.', ".git" included |
| GitOperations.NoMatchInPrefix | supabase/functions/git-operations/index.ts:81 | the unanchored search cannot match inside a prefix that has no 'g' |
| GitOperations.TargetBranch | supabase/functions/git-operations/index.ts:209 | the target's default branch, or "main" when it is absent or empty |
| GitOperations.ShortPushRef | supabase/functions/git-operations/index.ts:105-112 | the ref built on line 209 starts with "refs/heads/", and the name passed to getRef/updateRef is "heads/" + branch |
| GitOperations.CreateOrUpdateRef | supabase/functions/git-operations/index.ts:98-131 | getRef always comes first, with the short ref; updateRef carries the force flag and is called iff getRef succeeds; createRef uses the full ref and is called iff getRef or updateRef answers 404; every other error is returned unchanged; the step succeeds iff `RefUpdateSucceeded`, and a failure is the error `RefUpdateError` names |
| GitOperations.RefUpdateError | supabase/functions/git-operations/index.ts:116-127 | no error iff `RefUpdateSucceeded`; a getRef failure other than 404 is the error itself |
| GitOperations.ErrorText | supabase/functions/git-operations/index.ts:311 | the thrown error's message when it has a non-empty one, "Unknown error occurred" otherwise |
| GitOperations.GetRepoDetails | supabase/functions/git-operations/index.ts:36-77 | succeeds iff the URL parses and the repository reads, returning what was read; every failure is thrown as an object without a message |
| GitOperations.OperatePush | supabase/functions/git-operations/index.ts:165-244 | a missing row, an unreadable source or a source without commits stops the push before any ref call; otherwise the newest source commit goes to the target's branch ref, forced iff the push type is "force" or "force-with-lease", and the push succeeds iff the ref step does; what it throws is exactly `PushThrown`, so a failed ref step rethrows the GitHub error's own message and an unparsable target URL throws "Invalid GitHub URL: …" |
| GitOperations.OperateLastCommit | supabase/functions/git-operations/index.ts:246-289 | each failure path throws what the source throws: the query error, "Repository URL not found", the message-less details error, the TypeError on `lastCommit.sha` for a repository without commits, and the update error itself; success iff row, URL, details, a commit and the row update all succeed |
| GitOperations.Operate | supabase/functions/git-operations/index.ts:144-289 | logs begin with "Received operation request"; a missing token stops everything; an unknown operation does nothing; only a push makes ref calls; what is thrown is exactly `OperationThrown`: the token error, else the push or getLastCommit branch's error, else nothing |
| GitOperations.Serve | supabase/functions/git-operations/index.ts:133-328 | OPTIONS gets the preflight iff requested; otherwise 200 with success, or 500 with a non-empty error and logs ending in "Operation failed"; for a parsed body the reply succeeds iff `OperationThrown` is none, and a failure carries `ErrorText` of what was thrown; a missing token replies 500 with "GitHub token not configured"; an unknown operation replies 200; getLastCommit succeeds iff every one of its steps does; a failed details fetch replies "Unknown error occurred"; a push that reaches the ref step succeeds iff that step does |
| AuthUtils.NetworkErrorAlphabet | src/components/auth/login/utils/authUtils.ts:62 | the network error is spelled with lower-case letters, spaces, full stops, 'N' and 'P' only |
| AuthUtils.GetAuthCredentials | src/components/auth/login/utils/authUtils.ts:71-74 | the e-mail is the member number lower-cased character by character, followed by "@temp.com"; the password is the member number unchanged |
| AuthUtils.SameEmailIffSameLowercase | src/components/auth/login/utils/authUtils.ts:71-74 | two member numbers share an e-mail iff they agree after lower-casing |
| AuthUtils.VerifyFrom | src/components/auth/login/utils/authUtils.ts:36-66 | at most three queries; success returns the first row of the answer of the last query made; an error is either the not-found error or the network error, never the raw query error; every earlier attempt was a retried failure |
| AuthUtils.VerifyMember | src/components/auth/login/utils/authUtils.ts:30-69 | the loop's result and query count are those of `VerifyFrom` from attempt 1; the final throw is unreachable |
| AuthUtils.NonEmptyAnswerFound | src/components/auth/login/utils/authUtils.ts:36-56 | a non-empty answer after retried attempts is found: the result is its first row, after exactly that many queries |
| AuthUtils.NotFoundExceptionStops | src/components/auth/login/utils/authUtils.ts:58-61 | a thrown not-found error is not retried: the lookup ends with it at that attempt |
| AuthUtils.EmptyAnswerStops | src/components/auth/login/utils/authUtils.ts:52-58 | an empty answer ends the lookup at once with "Member not found or inactive", whatever later attempts would give |
| AuthUtils.ThreeFailuresGiveNetworkError | src/components/auth/login/utils/authUtils.ts:45-63 | three failed attempts end in the network error, after exactly three queries |
| AuthUtils.SignInRecovery | src/components/auth/login/utils/authUtils.ts:76-98 | success iff the message contains "refresh_token_not_found" and the retry succeeds; a failed retry gives the retry's error; any other error is rethrown unchanged |
| AuthUtils.HandleSignInError | src/components/auth/login/utils/authUtils.ts:76-98 | clears the state and signs in again iff the message contains "refresh_token_not_found"; the result is `SignInRecovery` |
| MemberUtils.SetAuthId | src/components/auth/login/utils/memberUtils.ts:3-14 | only the row with that id gets the auth user id; no other field or row changes, and none is added |
| MemberUtils.SetAuthIdIdempotent | src/components/auth/login/utils/memberUtils.ts:3-14 | linking twice equals linking once |
| MemberUtils.WithMemberRole | src/components/auth/login/utils/memberUtils.ts:16-52 | afterwards (userId, "member") is present; the old rows are kept as a prefix, and at most one row is added |
| MemberUtils.MemberRoleCounts | src/components/auth/login/utils/memberUtils.ts:18-44 | the member row is inserted only when absent, so it ends with exactly one copy if it had none; every other row keeps its count |
| MemberUtils.WithMemberRoleIdempotent | src/components/auth/login/utils/memberUtils.ts:16-52 | granting the role twice leaves the table as granting it once |
| MemberUtils.Tables.UpdateMemberWithAuthId | src/components/auth/login/utils/memberUtils.ts:3-14 | the update error is rethrown and leaves the table unchanged; otherwise the member table becomes `SetAuthId` of the old one |
| MemberUtils.Tables.AddMemberRole | src/components/auth/login/utils/memberUtils.ts:16-52 | a lookup error aborts without inserting; inserts iff neither call fails and no (userId, "member") row exists; an insert error is rethrown; on success the roles become `WithMemberRole` of the old ones, and on failure they are unchanged |
| LoginForm.TrimStart | src/components/auth/login/useLoginForm.ts:17 | removes exactly the leading white space and line terminators |
| LoginForm.TrimEnd | src/components/auth/login/useLoginForm.ts:17 | removes exactly the trailing white space and line terminators |
| LoginForm.TrimEmptyIffBlank | src/components/auth/login/useLoginForm.ts:17 | a member number trims to "" iff every character is white space or a line terminator |
| LoginForm.FirstRule | src/components/auth/login/useLoginForm.ts:142-152 | the first rule in order whose substring the message contains, or none when no rule matches |
| LoginForm.ClassifyLoginError | src/components/auth/login/useLoginForm.ts:140-152 | the if-chain yields the message of the first matching rule, or "An unexpected error occurred" |
| LoginForm.NotFoundIsRecognised | src/components/auth/login/useLoginForm.ts:142-143 | the lookup's not-found error is shown as "Member number not found or inactive" |
| LoginForm.NoRuleShowsDefault | src/components/auth/login/useLoginForm.ts:140-152 | a message containing none of the five substrings is shown as the default message |
| LoginForm.NetworkErrorShowsDefault | src/components/auth/login/useLoginForm.ts:140-152 | the network error thrown on line 41 (and by the lookup) matches no rule and is shown as the default message |
| LoginForm.NetworkMisses | src/components/auth/login/useLoginForm.ts:140-152 | the network error contains no substring that has a character outside its alphabet |
| LoginForm.SessionFrom | src/components/auth/login/useLoginForm.ts:88-112 | success iff one of the three polls has a session, and it is the first such poll's user; when no poll has a session, the result is the third poll's error if that poll failed, and "Failed to establish session" otherwise |
| LoginForm.WaitForSession | src/components/auth/login/useLoginForm.ts:88-112 | the polling loop ends with `SessionFrom` from poll 0 |
| LoginForm.SessionOutcome | src/components/auth/login/useLoginForm.ts:114-117 | the attempt passes the session check iff polling found a session, and otherwise fails with polling's error |
| LoginForm.CheckSession | src/components/auth/login/useLoginForm.ts:88-117 | the loop followed by the no-session check gives `SessionOutcome` |
| LoginForm.LinkNewUser | src/components/auth/login/useLoginForm.ts:63-64 | succeeds iff the update and the role lookup succeed and the insert succeeds or is not needed; then the member is linked and the role granted; on failure the roles are unchanged |
| LoginForm.AttemptUsesDerivedCredentials | src/components/auth/login/useLoginForm.ts:25-36 | an attempt starts by clearing the auth state; every sign-in and sign-up uses the credentials derived from the member number |
| LoginForm.SignUpOnlyForInvalidCredentials | src/components/auth/login/useLoginForm.ts:38-47 | a sign-up happens iff the member was found and the sign-in error has "Invalid login credentials" but not "Failed to fetch" |
| LoginForm.TablesChangeOnlyOnSignUp | src/components/auth/login/useLoginForm.ts:62-64 | the tables change only on a sign-up that returned a user, and only by linking the member that was found and appending roles |
| LoginForm.FirstSignUpWrites | src/components/auth/login/useLoginForm.ts:47-81 | the sign-up fallback writes only the member link and the new user's role |
| LoginForm.FirstLoginLinksMember | src/components/auth/login/useLoginForm.ts:44-81 | a first login in which every answer succeeds ends in success, with the member linked and the role granted |
| LoginForm.InvalidCredentialsTakesSignUpPath | src/components/auth/login/useLoginForm.ts:39-44 | the "Invalid login credentials" error is not a failed fetch, so it reaches the sign-up branch |
| LoginForm.AsWrittenFirstLoginFails | src/components/auth/login/useLoginForm.ts:62-64 | as written, once sign-up returns a user the attempt fails with the ReferenceError, writes nothing, and shows the default message |
| LoginForm.UndefinedAlphabet | src/components/auth/login/useLoginForm.ts:63 | the characters of the ReferenceError's message |
| LoginForm.UndefinedMissesNotFound | src/components/auth/login/useLoginForm.ts:142 | the ReferenceError's message does not contain "Member not found" |
| LoginForm.UndefinedShowsDefault | src/components/auth/login/useLoginForm.ts:140-152 | the ReferenceError's message matches no rule |
| LoginForm.UndefinedMisses | src/components/auth/login/useLoginForm.ts:140-152 | the ReferenceError's message contains no substring that has a character outside its alphabet |
| LoginForm.FetchFailureEndsAttempt | src/components/auth/login/useLoginForm.ts:38-42 | a "Failed to fetch" sign-in error ends the attempt with the network error before any sign-up, leaves the tables unchanged, and is shown as the default message |
| LoginForm.LoginToast | src/components/auth/login/useLoginForm.ts:125-158 | the toast is destructive iff the attempt failed, and then describes the classified message |
| LoginForm.HomeNavigation | src/components/auth/login/useLoginForm.ts:132-136 | success goes to "/", by replacing the location iff the window is at most 768 pixels wide |
| LoginForm.LoginFormHook.SetMemberNumber | src/components/auth/login/useLoginForm.ts:9 | sets the member number and nothing else |
| LoginForm.LoginFormHook.SignUpAndLink | src/components/auth/login/useLoginForm.ts:47-81 | the result, tables and auth calls are those of `FirstSignUp` |
| LoginForm.LoginFormHook.AfterSignIn | src/components/auth/login/useLoginForm.ts:38-85 | the result, tables and auth calls are those of `SignInStep` |
| LoginForm.LoginFormHook.SignInAndWait | src/components/auth/login/useLoginForm.ts:33-117 | the result, tables and auth calls are those of `SignInAndSession` |
| LoginForm.LoginFormHook.RunAttempt | src/components/auth/login/useLoginForm.ts:25-117 | the result, tables and auth calls are those of `Attempt` |
| LoginForm.LoginFormHook.HandleLogin | src/components/auth/login/useLoginForm.ts:15-161 | does nothing while loading or for a blank number; otherwise it runs one `Attempt`, ends with `loading` false, and adds exactly one toast, plus a navigation home iff the attempt succeeded |
| LoginForm.LoginFormHook.Finish | src/components/auth/login/useLoginForm.ts:119-160 | one toast for the outcome, a navigation home iff success, and `loading` cleared |
| AuthSession.SessionAfter | src/hooks/useAuthSession.tsx:113-122 | SIGNED_OUT leaves no session; every other event sets the event's session |
| AuthSession.ReplayIsLastDelivery | src/hooks/useAuthSession.tsx:104-123 | after a run of events the session depends only on the last one |
| AuthSession.SignOutErrorDescription | src/hooks/useAuthSession.tsx:38-40 | the network message iff the error mentions "502", the raw message otherwise |
| AuthSession.AuthSessionHook.constructor | src/hooks/useAuthSession.tsx:8-9 | no session, loading |
| AuthSession.AuthSessionHook.Mount | src/hooks/useAuthSession.tsx:70-130 | mounted and subscribed; nothing else changes |
| AuthSession.AuthSessionHook.Cleanup | src/hooks/useAuthSession.tsx:132-137 | unmounted and unsubscribed; nothing else changes |
| AuthSession.AuthSessionHook.OnAuthStateChange | src/hooks/useAuthSession.tsx:104-123 | after cleanup nothing changes; otherwise the session becomes `SessionAfter`, SIGNED_OUT clears the query cache, and SIGNED_OUT or SIGNED_IN go to "/" |
| AuthSession.AuthSessionHook.HandleSignOut | src/hooks/useAuthSession.tsx:13-46 | the query cache is cleared; both storages are cleared unless skipped; success drops the session and goes to "/login", an error shows the sign-out toast instead; loading ends false |
| AuthSession.AuthSessionHook.HandleAuthError | src/hooks/useAuthSession.tsx:48-68 | a refresh-token failure signs out keeping the storages and toasts "Session Expired"; any other error only toasts its message |
| AuthSession.AuthSessionHook.InitializeSession | src/hooks/useAuthSession.tsx:76-101 | an error goes to `HandleAuthError` even after unmount; a session is taken and loading ended only while mounted |
| ProtectedRoutes.StripTrailingSlashes | src/components/routing/ProtectedRoutes.tsx:56-83 | a prefix of the path that does not end in '/', followed in the path only by slashes |
| ProtectedRoutes.RoutePathsMatchThemselves | src/components/routing/ProtectedRoutes.tsx:56-83 | "/" and "/login" each match their own route and not the other |
| ProtectedRoutes.Route | src/components/routing/ProtectedRoutes.tsx:56-83 | a path matching "/" (up to trailing slashes) shows Index or redirects to "/login"; a path matching "/login" up to ASCII case and trailing slashes redirects to "/" or shows Login; any other path redirects according to the session |
| ProtectedRoutes.LoginPathVariants | src/components/routing/ProtectedRoutes.tsx:66-75 | "/LOGIN" and "/login/" show Login without a session, and "/Login//" redirects home with one |
| ProtectedRoutes.AtMostOneRedirect | src/components/routing/ProtectedRoutes.tsx:56-83 | from any path one redirect at most reaches Index with a session and Login without one |
| ProtectedRoutes.AuthRedirect | src/components/routing/ProtectedRoutes.tsx:18-31 | to "/login" iff SIGNED_OUT or TOKEN_REFRESHED without a session; to "/" iff SIGNED_IN with a session; nowhere otherwise |
| ProtectedRoutes.RedirectLandsOnMatchingPage | src/components/routing/ProtectedRoutes.tsx:24-30 | the page the route table shows after an auth redirect fits the event's session |
| ProtectedRoutes.ShowsNavigationToast | src/components/routing/ProtectedRoutes.tsx:39-49 | the toast appears iff the error is a ChunkLoadError or the message contains "Failed to fetch" |
| WebsiteAnalyzer.CountWithAlt | src/utils/websiteAnalyzer.ts:52-53 | the count equals the number of images iff all have alt, and is positive iff some image has alt |
| WebsiteAnalyzer.AltTagsThreeWay | src/utils/websiteAnalyzer.ts:51-58 | "All Present" iff every img has alt (no images included); "Missing" iff there are images and none has alt; "Partially Present" iff some do and some do not |
| WebsiteAnalyzer.MetricsShape | src/utils/websiteAnalyzer.ts:27-58 | exactly six metrics, named in the fixed order; HTTPS is "Yes" iff the URL starts with "https"; meta description and h1 are "Present" iff found |
| WebsiteAnalyzer.HttpsIsPrefixTest | src/utils/websiteAnalyzer.ts:30 | "https…" is always "Yes" and "http:…" always "No" |
| WebsiteAnalyzer.AnalyzeWebsite | src/utils/websiteAnalyzer.ts:15-65 | the metrics pushed step by step are `Metrics`; any failure is the single error "Failed to analyze website" |
| WebTools.SuccessReportsSix | src/pages/WebTools.tsx:43-47 | a successful analysis logs "Found 6 metrics" |
| Common.NatToString | src/pages/WebTools.tsx:47 | `${results.length}`: digits only, no leading zero, and its decimal value is the number |
| WebTools.HealthLines | src/pages/WebTools.tsx:21 | one health-check line per firing, in order, each stamped with its own time |
| WebTools.WebToolsPage.constructor | src/pages/WebTools.tsx:11-14 | not loading, no metrics or logs, not monitoring |
| WebTools.WebToolsPage.HandleAnalyze | src/pages/WebTools.tsx:27-63 | an invalid URL only toasts; otherwise the logs restart with one start line; while monitoring, the health-check lines of interval firings during the await follow the start line; then success replaces the metrics and appends two lines, each with its own clock reading, and failure keeps the metrics and appends one error line; loading is false at the end |
| WebTools.WebToolsPage.ToggleMonitoring | src/pages/WebTools.tsx:76 | flips `isMonitoring` and nothing else |
| WebTools.WebToolsPage.Tick | src/pages/WebTools.tsx:17-25 | while monitoring, appends exactly one "Health check performed" line; otherwise nothing changes |
| ConsoleOutput.FormatAll | src/components/repository/ConsoleOutput.tsx:19-20 | one formatted line per entry, in order |
| ConsoleOutput.UpperKeepsSingleLine | src/components/repository/ConsoleOutput.tsx:20 | upper-casing never introduces a line break |
| ConsoleOutput.FormatLineIsSingleLine | src/components/repository/ConsoleOutput.tsx:20 | an entry without line breaks formats to one line |
| ConsoleOutput.CopyTextLines | src/components/repository/ConsoleOutput.tsx:19-21 | empty logs give ""; otherwise splitting the text at "\n" gives the formatted entries back, one per entry, so there is no trailing newline |
| ConsoleOutput.FormatLineShowsUpperType | src/components/repository/ConsoleOutput.tsx:20 | the line is "[timestamp] " followed by the upper-cased type |
| ConsoleOutput.EntryCount | src/components/repository/ConsoleOutput.tsx:40 | the count shown equals the number of entries and of copied lines |
| ConsoleOutput.EntryColour | src/components/repository/ConsoleOutput.tsx:68-72 | red iff "error", green iff "success", blue otherwise |
| ConsoleOutput.ConsoleOutputView.CopyLogs | src/components/repository/ConsoleOutput.tsx:18-31 | a resolving write puts `CopyText` on the clipboard, sets `copied` and toasts; a rejected write changes nothing |
| ConsoleOutput.ConsoleOutputView.ResetCopied | src/components/repository/ConsoleOutput.tsx:29 | clears `copied` and nothing else |
| MetricsHighcharts.ToPoint | src/components/visualizations/DetailedWebMetricsHighcharts.tsx:12-17 | name is the metric and status the value; y is 1 iff Present/Yes, 0 otherwise; green iff y = 1, red iff y = 0 |
| MetricsHighcharts.PresenceData | src/components/visualizations/DetailedWebMetricsHighcharts.tsx:10-17 | no longer than the input; every slice has a yes/no status, y in {0, 1}, and is green iff positive |
| MetricsHighcharts.PresenceDataAppend | src/components/visualizations/DetailedWebMetricsHighcharts.tsx:10-17 | the transform keeps order: the chart of a + b is the chart of a followed by that of b |
| MetricsHighcharts.PresenceDataMembers | src/components/visualizations/DetailedWebMetricsHighcharts.tsx:10-17 | a slice is in the chart iff it is the point of an input entry with a yes/no value |
| MetricsHighcharts.DroppedEntryShortens | src/components/visualizations/DetailedWebMetricsHighcharts.tsx:10-11 | an entry like "All Present" is dropped, so the chart is strictly shorter than the input |
| MetricsP5.FirstCategory | src/components/visualizations/DetailedWebMetricsP5.tsx:48-50 | the first category in table order whose list holds the name, or "other" when none does |
| MetricsP5.CategoryIsTabledOrOther | src/components/visualizations/DetailedWebMetricsP5.tsx:26-50 | a category is one of the four tabled ones or "other", and it is "other" iff no list holds the name |
| MetricsP5.NotListed | src/components/visualizations/DetailedWebMetricsP5.tsx:49 | a name that differs from every entry of a list in length or first character is not in it |
| MetricsP5.CategoryOfListed | src/components/visualizations/DetailedWebMetricsP5.tsx:48-50 | a name listed under a category, and under none before it, gets that category |
| MetricsP5.LoadTimeAndSizeArePerformance | src/components/visualizations/DetailedWebMetricsP5.tsx:27 | "Page Load Time" and "Page Size" are performance |
| MetricsP5.MetaAndH1AreSeo | src/components/visualizations/DetailedWebMetricsP5.tsx:28 | "Meta Description" and "H1 Tag" are seo |
| MetricsP5.HttpsIsSecurity | src/components/visualizations/DetailedWebMetricsP5.tsx:29 | "HTTPS" is security |
| MetricsP5.AltTagsAreAccessibility | src/components/visualizations/DetailedWebMetricsP5.tsx:30 | "Image Alt Tags" is accessibility |
| MetricsP5.RadiusOf | src/components/visualizations/DetailedWebMetricsP5.tsx:54 | 150 iff the value is exactly "Present" or "Yes", 100 otherwise |
| MetricsP5.CircleOf | src/components/visualizations/DetailedWebMetricsP5.tsx:52-59 | the circle records the entry's position, label and value, its category and its radius |
| MetricsP5.AllPresentGetsSmallRadius | src/components/visualizations/DetailedWebMetricsP5.tsx:54 | "All Present" gets radius 100 |
| MetricsP5.ColourOf | src/components/visualizations/DetailedWebMetricsP5.tsx:33-39 | any unknown category falls back to the "other" colour |
| MetricsP5.IndicatorColour | src/components/visualizations/DetailedWebMetricsP5.tsx:137 | green iff the value is Present/Yes, red otherwise |
| MetricsP5.GlowMatchesRadius | src/components/visualizations/DetailedWebMetricsP5.tsx:101-109 | a circle glows and has a green indicator iff it has the large radius |
| MetricsP5.Sketch.Setup | src/components/visualizations/DetailedWebMetricsP5.tsx:41-61 | exactly one circle is pushed per entry, in data order, each `CircleOf` its entry; earlier circles are kept |
| StorageMock.Lookup | src/test/setupTests.ts:29 | a stored non-empty string reads back; a stored "" reads as null; an inherited name that was never stored reads as the inherited member |
| StorageMock.Store | src/test/setupTests.ts:30-32 | the key is created or overwritten, except "__proto__", which is ignored |
| StorageMock.ReadAfterStore | src/test/setupTests.ts:29-32 | after a write the key reads back its value (null for ""), and every other key reads as before |
| StorageMock.ReadAfterDelete | src/test/setupTests.ts:29-35 | after a delete the key reads as never set, and every other key reads as before |
| StorageMock.HeadIsLeast | src/test/setupTests.ts:37 | the head of an ascending index list is its least value |
| StorageMock.ConsAscending | src/test/setupTests.ts:37 | a least value in front keeps the list ascending |
| StorageMock.TailAscending | src/test/setupTests.ts:37 | the tail of an ascending list is ascending |
| StorageMock.InsertBehindHead | src/test/setupTests.ts:37 | inserting a larger key behind the head keeps the list ascending |
| StorageMock.InsertIndex | src/test/setupTests.ts:37 | inserting adds the key once and keeps an ascending list ascending |
| StorageMock.SortIndices | src/test/setupTests.ts:37 | the array-index keys, permuted into ascending numeric order |
| StorageMock.IndexKeys | src/test/setupTests.ts:37 | exactly the own keys that are array indices |
| StorageMock.OtherKeys | src/test/setupTests.ts:37 | exactly the own keys that are not array indices, in creation order |
| StorageMock.KeysPartition | src/test/setupTests.ts:37 | the two groups together hold every own key exactly once |
| StorageMock.ObjectKeysOrder | src/test/setupTests.ts:37 | `Object.keys` is a permutation of the own keys: the array-index keys first in ascending order, then the rest in creation order |
| StorageMock.SortedAreIndices | src/test/setupTests.ts:37 | sorting keeps every entry an array index |
| StorageMock.IndexKeysFirst | src/test/setupTests.ts:37 | in the enumeration, a position holds an array index iff it lies in the first part |
| StorageMock.ObjectKeysCover | src/test/setupTests.ts:37-39 | every own key is enumerated, so `clear` visits it |
| StorageMock.Without | src/test/setupTests.ts:34 | the key order loses exactly the deleted key and keeps no duplicates |
| StorageMock.NothingListed | src/test/setupTests.ts:36-40 | keys that all name properties of an empty object are no keys at all |
| StorageMock.EmptyIffNoKeys | src/test/setupTests.ts:37 | `Object.keys` is empty iff the object has no own properties |
| StorageMock.Storage.constructor | src/test/setupTests.ts:26-27 | an empty object |
| StorageMock.Storage.GetItem | src/test/setupTests.ts:29 | reads the items through `Lookup` |
| StorageMock.Storage.SetItem | src/test/setupTests.ts:30-32 | the items become `Store` of the old items; a new key goes to the end of the key order; an overwrite keeps its place |
| StorageMock.Storage.RemoveItem | src/test/setupTests.ts:33-35 | only that key is removed, from the items and from the order |
| StorageMock.Storage.Clear | src/test/setupTests.ts:36-40 | deleting every key `Object.keys` lists leaves the object empty |
| StorageMock.Storage.RemoveAll | src/test/setupTests.ts:37-39 | deleting, one at a time, a list that covers the own keys leaves the object empty |
| StorageMock.Storage.Length | src/test/setupTests.ts:41 | always 0 |
| StorageMock.LengthIgnoresContents | src/test/setupTests.ts:37-41 | the reported length equals the number of enumerated keys iff the store is empty |
| StorageMock.Storage.Key | src/test/setupTests.ts:42 | the key at that position of `Object.keys`; null out of range and for the key "" |
| StorageMock.CreateGlobals | src/test/setupTests.ts:46-47 | `localStorage` and `sessionStorage` are two distinct, empty objects |

## Left out

- GitHub (Octokit), the database queries and updates, the auth SDK and `fetch` are not called. What each one answers is an input: `Services`, `RefApi`, `LoginWorld`, per-attempt outcome sequences, `PageFacts`, or `SessionReply`.
- Timers are not modelled:
  - the one-second retry sleeps;
  - the 30-second health-check interval, which is a `Tick` the caller sends;
  - the 2-second reset of `copied`, which is `ResetCopied`.
- Clock readings (`toLocaleTimeString`, `toISOString`) are string inputs, one per reading. Log entries of the edge function keep their kind and message, but not their data or timestamp.
- Console output, ANSI colours and CORS headers are not modelled.
- Floating point is not modelled:
  - the load time and page size (`toFixed`) are preformatted strings in `PageFacts`;
  - the p5 angles, random pulse offsets, draw geometry, gradients and label rotation are omitted;
  - a circle records its index instead of its angle.
- ProtectedRoutes.Route: path matching does not percent-decode the path; React Router decodes it before matching, so "/%6Cogin" is treated as a path of its own.
- WebTools.WebToolsPage.HandleAnalyze: the monitoring switch is fixed for the duration of one analysis; toggling it while the analysis is awaited is not modelled.
- `isValidUrl` depends on the WHATWG URL parser. Its boolean answer is the `urlIsValid` input of `WebTools.WebToolsPage.HandleAnalyze`. As a parameter it is total by construction.
- AuthUtils.GetAuthCredentials: lower-cases ASCII letters only; full Unicode case mapping is not modelled.
- ConsoleOutput.FormatLineShowsUpperType: upper-cases ASCII letters only, for the same reason.
- `clearAuthState` is recorded as a `ClearAuthState` call that always succeeds, because `signOut` reports errors instead of throwing. Its storage and cookie clearing is not modelled in the login model.
- The query-cache calls of the login hook are not modelled: `invalidateQueries`, `cancelQueries` and `clear` have no visible effect there.
- In the session hook, the query cache is a field that reset and clear empty.
- `maybeSingle` can fail when several rows match. That error is folded into the `lookupError` input of `AddMemberRole`.
- The status update after a push is not modelled: its error is never inspected, and the column values it writes are not modelled. For `getLastCommit`, only the update's error is modelled.
- The branch list that `getRepoDetails` maps is not modelled, because the column values of the `getLastCommit` update are not modelled.
- `initializeSession` calls `handleAuthError` without awaiting it. The model runs it to completion, so interleaving with later auth events is not modelled.
- The `data` payload of a console entry is rendered but never copied, so it is not modelled. The `showConsole` toggle is a prop owned by the parent and is not modelled.
- A clipboard write that rejects has no handler in the source. The model leaves the view unchanged and does not model the unhandled rejection.
- `setItem` calls `value.toString()`. The values are strings, and for those it is the identity.
- `key(index)` is modelled for integer indexes only. A fractional index, which reads `undefined` and so yields null, is not modelled.
- The colour lookup's `categoryColors[...]` would also find `Object.prototype` names. `setup` only ever assigns a tabled category or "other", so this is not modelled.
- Not modelled in the test setup:
  - JSDOM;
  - the `navigator` and `matchMedia` stubs;
  - `renderWithProviders` and `afterEach`;
  - the call recording of `vi.fn`.
- Rendering is not modelled: JSX, Highcharts options, the D3 chart and the other pages.

## Findings

| source | as written | input that shows it | evidently intended | confidence | as-written member | corrected member |
|---|---|---|---|---|---|---|
| src/components/auth/login/useLoginForm.ts:63-64 | calls `updateMemberWithAuthId` and `addMemberRole`, which the import on line 6 does not bring in, so the first call throws a ReferenceError; the catch shows "An unexpected error occurred", and the member is never linked and never gets a role | a first login: the member is found, sign-in fails with "Invalid login credentials", and sign-up returns a user | link the member row to the new user, grant the "member" role, then sign in again (memberUtils.ts provides both functions) | not executed | LoginForm.AsWrittenFirstLoginFails | LoginForm.FirstLoginLinksMember |

The rest of the model uses the corrected sign-up path: `LoginForm.FirstSignUp`, `LoginForm.LinkNewUser` and `LoginForm.LoginFormHook.SignUpAndLink`. `LoginForm.FirstSignUpAsWritten` keeps the behaviour as written.
