# Nexus intern connect: a verified model of the front end's logic

Nexus is a marketplace where BITS students find internships at startups. The
web client is a React application. This project models in Dafny the logic the
client runs, and proves what its pages and its session controller promise:

- the session controller (`AuthContext`): the signed-in user, the `loading`
  flag, the copy of the user kept in the browser's `nexusUser` storage slot,
  the identity-provider events, sign-in, sign-out and the two profile setters
  (module `Auth`, class `Auth.AuthController`);
- the route guard (`ProtectedRoute`): spinner, login redirect, role check,
  unfinished-profile redirect (module `ProtectedRoute`);
- the route table (`App`) and what a user sees at each path (module
  `AppRoutes`);
- the landing page's redirect (`Index`, module `Landing`);
- the navigation bar's links, the active-link test and the mobile menu
  (module `Navbar`);
- the internship list's search, mode and domain filters, the filter chips
  and the option lists (module `InternshipsList`);
- the two home pages' startup search and counters (module `HomePages`);
- the new-listing form: the skill editor, the question rows, the schema and
  the submit (module `CreateInternship`);
- the two onboarding forms: the student's domain picker, schema and submit
  (module `StudentProfile`); the startup's year list, schema, database row and
  submit (module `StartupProfile`);
- the profile page's record, edit / save / cancel cycle and role badge
  (module `ProfilePage`);
- the startup dashboard's listings, applications table and status menu
  (module `StartupDashboard`);
- the student's applied-positions page (module `AppliedPositions`);
- the fixture data every page reads (module `Marketplace`).

`Base` holds generic sequence helpers (filter, first match, de-duplication)
and `Text` the JavaScript string operations the pages use (`trim`,
`toLowerCase`, `includes`).

The identity provider, the database and the browser's storage are not
called: every answer they can give (a session or none, an error or success,
a readable, unreadable or empty slot) is a parameter, and every navigation
the code issues is returned as `Some(path)`. The current date and year are
parameters too.

The session controller is a class whose methods update its fields; each
method's contract ties the new state to one transition function of the
state (`Auth.Apply`). The invariant that the storage slot mirrors the user
is proved for every transition and every sequence of them. Forms and pages
whose handlers change component state are classes as well
(`CreateInternship.SkillEditor`, `CreateInternship.QuestionRows`, `StudentProfile.DomainPicker`,
`InternshipsList.InternshipsListPage`, `ProfilePage.ProfilePageState`).

## Model

| member | source | states |
|---|---|---|
| Auth.RoleName | src/contexts/AuthContext.tsx:6 | the spelling is "student" exactly for the student role and "startup" exactly for the startup role |
| Auth.OrElse | src/contexts/AuthContext.tsx:66-67 | `a \|\| b` on an optional string: a non-empty `a`, otherwise `b` |
| Auth.StoredCopy | src/contexts/AuthContext.tsx:54-62 | the stored user data is present exactly when the slot parses |
| Auth.UserFromSession | src/contexts/AuthContext.tsx:64-71 | the user built from a session: its id; its email or ""; full name, else name, else ""; role and completion from a readable slot, otherwise no role and not completed |
| Auth.SessionRedirect | src/contexts/AuthContext.tsx:75-79 | a redirect happens exactly when the user has no role and the path is none of /student-profile, /startup-profile, /login; it goes to /student-profile |
| Auth.AfterLoadStored | src/contexts/AuthContext.tsx:35-45 | a readable slot becomes the user; an unreadable one is removed and the user is untouched; an empty slot changes nothing |
| Auth.AfterAuthChange | src/contexts/AuthContext.tsx:49-85 | with a session the user and the slot both become the session's user and the redirect is `SessionRedirect`; `SIGNED_OUT` without a session clears both and goes to "/"; any other event changes nothing |
| Auth.AfterInitialize | src/contexts/AuthContext.tsx:89-122 | `loading` ends false; a returned session sets user and slot like an event does; a throw or no session leaves them as they were |
| Auth.AfterSignOut | src/contexts/AuthContext.tsx:159-180 | on success the user and the slot are cleared and the app goes to "/"; on a provider error nothing changes and nothing navigates |
| Auth.WithUserType | src/contexts/AuthContext.tsx:182-188 | without a user nothing changes; otherwise the user the caller saw, with only `userType` replaced, becomes the user and the slot |
| Auth.WithProfileCompleted | src/contexts/AuthContext.tsx:190-196 | without a user nothing changes; otherwise the user the caller saw, with only `profileCompleted` replaced, becomes the user and the slot |
| Auth.LoadStoredMirrors | src/contexts/AuthContext.tsx:35-45 | after the mount-time load the slot and the user agree, and an unreadable slot leaves no user |
| Auth.StepKeepsMirror | src/contexts/AuthContext.tsx:35-196 | every transition keeps the slot equal to the user (absent when there is none) |
| Auth.RunKeepsMirror | src/contexts/AuthContext.tsx:35-196 | the mirror holds after any sequence of transitions |
| Auth.SessionEventKeepsOnboarding | src/contexts/AuthContext.tsx:64-71 | while the slot mirrors the user, a session event keeps the user's role and completion flag |
| Auth.RoleHolderNotRedirected | src/contexts/AuthContext.tsx:75-79 | a signed-in user with a role is never redirected by an auth event |
| Auth.LoadingClearedAfterwards | src/contexts/AuthContext.tsx:119-121 | `initializeAuth` and `signInWithGoogle` leave `loading` false whether the provider answered or threw |
| Auth.NavigationSources | src/contexts/AuthContext.tsx:76-83 | only a session event, `SIGNED_OUT` or a successful sign-out navigates, and only to "/" or /student-profile |
| Auth.AuthController.constructor | src/contexts/AuthContext.tsx:28-29 | no user, `loading` true, the slot as the browser kept it |
| Auth.AuthController.LoadStoredUser | src/contexts/AuthContext.tsx:35-45 | the new state is `AfterLoadStored` of the old one |
| Auth.AuthController.OnAuthStateChange | src/contexts/AuthContext.tsx:49-85 | the new state and the navigation are `AfterAuthChange` of the old state |
| Auth.AuthController.InitializeAuth | src/contexts/AuthContext.tsx:89-122 | the new state is `AfterInitialize` of the old one |
| Auth.AuthController.SignInWithGoogle | src/contexts/AuthContext.tsx:131-157 | only `loading` changes, ending false; the result reports whether the provider accepted |
| Auth.AuthController.SignOut | src/contexts/AuthContext.tsx:159-180 | the new state and the navigation are `AfterSignOut` of the old state |
| Auth.AuthController.SetUserType | src/contexts/AuthContext.tsx:182-188 | the new state is `WithUserType` of the old state and the caller's user |
| Auth.AuthController.SetProfileCompleted | src/contexts/AuthContext.tsx:190-196 | the new state is `WithProfileCompleted` of the old state and the caller's user |
| ProtectedRoute.ProfileFormOf | src/components/ProtectedRoute.tsx:32-39 | each role's onboarding form is one of the two profile-form paths |
| ProtectedRoute.Guard | src/components/ProtectedRoute.tsx:15-41 | spinner exactly while loading; signed out goes to /login; a wrong or missing role goes to "/"; the page renders exactly when the role fits and the profile is complete, the path is a profile form, or the user has no role; any other redirect is to the role's profile form |
| ProtectedRoute.CompletedMatchingUserRenders | src/components/ProtectedRoute.tsx:27-41 | a completed profile with a fitting role always gets the page |
| ProtectedRoute.UnfinishedProfileSentToForm | src/components/ProtectedRoute.tsx:32-39 | an unfinished profile with a role, off the profile forms, is sent to its role's form |
| ProtectedRoute.RedirectTargetAdmits | src/components/ProtectedRoute.tsx:32-39 | the form an unfinished profile is sent to lets that user in: no redirect loop |
| AppRoutes.Paths | src/App.tsx:33-54 | the table's paths, one per route, in order |
| AppRoutes.RoutesHaveDistinctPaths | src/App.tsx:33-51 | no path appears twice in the table |
| AppRoutes.NoRouteIsNotFound | src/App.tsx:33-51 | no listed route shows the not-found page |
| AppRoutes.Resolve | src/App.tsx:33-54 | under exact string matching, a path that equals no listed path shows the not-found page and no listed path does; a listed path gets its route's element |
| AppRoutes.Render | src/App.tsx:33-54 | an unguarded route shows its page unconditionally |
| AppRoutes.ResolveListed | src/App.tsx:33-51 | each route's path resolves to that route's element |
| AppRoutes.ResolveAt | src/App.tsx:33-51 | the element at a table position is what its path resolves to |
| AppRoutes.PublicRoutes | src/App.tsx:33-49 | "/", /login, /about and /contact are open |
| AppRoutes.AnyRoleRoutes | src/App.tsx:35-50 | the two profile forms and /profile are guarded without a role |
| AppRoutes.RoleRoutes | src/App.tsx:38-46 | the three student pages require the student role and the three startup pages the startup role |
| AppRoutes.StudentRoutes | src/App.tsx:38-41 | /student, /internships and /applied require the student role |
| AppRoutes.StartupRoutes | src/App.tsx:43-46 | /startup, /create-internship and /dashboard require the startup role |
| AppRoutes.TableGuardsMatchPageRoles | src/App.tsx:38-46 | every role-specific page in the table is guarded with its own role |
| AppRoutes.RouteGuardsMatchPageRoles | src/App.tsx:33-54 | whatever the path, a role-specific page is reached only through its role's guard |
| AppRoutes.RoleSeparation | src/App.tsx:33-54 | whenever a role-specific page shows, the user is signed in and holds that role |
| AppRoutes.StartupNeverSeesStudentPages | src/App.tsx:38-41 | a user without the student role who opens a student page is sent to "/" |
| AppRoutes.CompletedStudentSeesStudentPages | src/App.tsx:38-41 | a student with a completed profile sees all three student pages |
| AppRoutes.FinishedProfileSeesAdmittedPages | src/App.tsx:33-54 | a completed profile sees every page whose guard admits its role |
| AppRoutes.SignedOutSentToLogin | src/App.tsx:33-54 | every guarded path sends a signed-out visitor to /login |
| AppRoutes.SessionRedirectRenders | src/contexts/AuthContext.tsx:75-79 | where the session redirect goes, the student profile form renders |
| Landing.HomeOf | src/pages/Index.tsx:20-24 | a role's home is "/" followed by the role's name |
| Landing.LandingRedirect | src/pages/Index.tsx:12-28 | a redirect happens exactly for a signed-in user with a role; to a profile form exactly when the profile is unfinished |
| Landing.LandingTargets | src/pages/Index.tsx:12-28 | the four targets: each role's form when unfinished, each role's home when finished |
| Landing.LandingTargetRenders | src/pages/Index.tsx:12-28 | wherever the landing page sends a user, that page renders for them |
| Landing.RolelessUserStuckAtLanding | src/pages/Index.tsx:12-28 | a signed-in user with no role is sent home by both role homes and is not redirected by the landing page |
| Navbar.NavLinks | src/components/Navbar.tsx:24-48 | Home, About and Contact when signed out; no links for a role-less user; each role's three links then About and Contact |
| Navbar.AtMostOneActive | src/components/Navbar.tsx:22 | at most one link is highlighted for any path |
| Navbar.LinksOfFinishedProfileRender | src/components/Navbar.tsx:24-48 | every link a completed profile is offered opens a page that shows and that its role may see |
| Navbar.LinksOfRole | src/components/Navbar.tsx:33-47 | each link offered to a role is one that role may see |
| Navbar.RoleSeesAdmitted | src/components/Navbar.tsx:33-47 | what a role may see is admitted by that path's guard |
| Navbar.SignedOutLinksAreOpen | src/components/Navbar.tsx:26-31 | every signed-out link goes to an unguarded page |
| Navbar.MobileMenu.constructor | src/components/Navbar.tsx:19 | the mobile menu starts closed |
| Navbar.MobileMenu.Toggle | src/components/Navbar.tsx:114 | the menu button flips the menu |
| Navbar.MobileMenu.Follow | src/components/Navbar.tsx:141 | following a menu entry closes the menu |
| Marketplace.ModeNameInjective | src/lib/mockData.ts:22 | distinct work modes are spelled differently |
| Marketplace.BadgeOf | src/pages/StartupDashboard.tsx:217-225 | "Shortlisted" gets the default badge, "Rejected" the destructive one, any other status the secondary one |
| Marketplace.StatusBadgesDistinct | src/lib/mockData.ts:43 | the three statuses get three different badges, "Pending" the secondary one |
| InternshipsList.DomainLabel | src/pages/InternshipsList.tsx:36-39 | a listing's domain is "Technology" exactly when its startup id starts with "s", otherwise "Business" |
| InternshipsList.ShownInternships | src/pages/InternshipsList.tsx:48-76 | the shown list keeps the fixture's order and holds exactly the listings that pass the search, mode and domain filters, each with as many copies as the list has |
| InternshipsList.FilterInternships | src/pages/InternshipsList.tsx:48-76 | the three filter passes compute exactly `ShownInternships` |
| InternshipsList.ShownHaveSelectedMode | src/pages/InternshipsList.tsx:61-63 | with a mode chosen, every shown listing has that mode |
| InternshipsList.BlankTermIgnored | src/pages/InternshipsList.tsx:51 | a search term of only whitespace filters nothing |
| InternshipsList.ClearedShowsAll | src/pages/InternshipsList.tsx:86-90 | with no term, mode or domain every listing shows, in order |
| InternshipsList.DomainsPartition | src/pages/InternshipsList.tsx:66-74 | a listing shows under "Technology" exactly when it does not under any other domain |
| InternshipsList.Active | src/pages/InternshipsList.tsx:79-82 | the chip record holds the mode exactly when one is chosen, and the domain likewise |
| InternshipsList.SpacesShowPanelButFilterNothing | src/pages/InternshipsList.tsx:165 | a term of spaces shows the active-filter panel although it filters nothing |
| InternshipsList.ModesOf | src/pages/InternshipsList.tsx:43-45 | each listing's mode, in order |
| InternshipsList.DomainsOf | src/pages/InternshipsList.tsx:35-40 | each listing's domain label, in order |
| InternshipsList.UniqueModes | src/pages/InternshipsList.tsx:43-45 | the mode options have no repeats and are exactly the modes some listing has |
| InternshipsList.UniqueDomains | src/pages/InternshipsList.tsx:35-40 | the domain options have no repeats and are exactly the domains some listing has |
| InternshipsList.UniformIdsOneDomain | src/pages/InternshipsList.tsx:35-40 | when every startup id starts with "s" the only option is "Technology" and "Business" shows nothing |
| InternshipsList.FixtureDomains | src/lib/mockData.ts:110-216 | with the fixture listings the only domain option is "Technology" |
| InternshipsList.FixtureUnfiltered | src/pages/InternshipsList.tsx:31 | unfiltered, the page shows the six fixture listings |
| InternshipsList.InternshipsListPage.constructor | src/pages/InternshipsList.tsx:28-32 | empty term, "all" mode and domain, all fixtures shown, no chips |
| InternshipsList.InternshipsListPage.SetSearchTerm | src/pages/InternshipsList.tsx:28 | only the term changes |
| InternshipsList.InternshipsListPage.SetMode | src/pages/InternshipsList.tsx:29 | only the mode changes |
| InternshipsList.InternshipsListPage.SetDomain | src/pages/InternshipsList.tsx:30 | only the domain changes |
| InternshipsList.InternshipsListPage.RunFilterEffect | src/pages/InternshipsList.tsx:48-84 | the inputs are kept and the shown list and chips are brought into line with them |
| InternshipsList.InternshipsListPage.ClearFilters | src/pages/InternshipsList.tsx:86-90 | the term, mode and domain are reset; the shown list waits for the effect |
| InternshipsList.ClearThenRefresh | src/pages/InternshipsList.tsx:86-90 | clearing then running the effect shows every fixture and hides the chip panel |
| Text.TrimStart | src/pages/InternshipsList.tsx:51 | a suffix of the input with no leading whitespace, obtained by dropping only whitespace |
| Text.TrimEnd | src/pages/InternshipsList.tsx:51 | a prefix of the input with no trailing whitespace, obtained by dropping only whitespace |
| Text.BlankIffAllWhitespace | src/pages/InternshipsList.tsx:51 | `trim() === ""` holds exactly for strings of whitespace |
| Text.TrimIdempotent | src/pages/CreateInternship.tsx:111-123 | trimming twice is trimming once |
| Text.Lower | src/pages/InternshipsList.tsx:54-57 | same length, each character lower-cased |
| Text.LowerKeepsBlank | src/pages/InternshipsList.tsx:51-57 | lower-casing neither makes nor breaks a blank term |
| Text.LowerIdempotent | src/pages/InternshipsList.tsx:54-57 | lower-casing twice is lower-casing once |
| Text.ContainsAtOffset | src/pages/InternshipsList.tsx:54-57 | `includes` holds exactly when the term occurs at some offset |
| Text.ContainsLongerContainsPrefix | src/pages/StudentHome.tsx:25-28 | a text that contains a term contains every prefix of it |
| Text.LowerAppend | src/pages/StudentHome.tsx:25-28 | lower-casing distributes over concatenation |
| HomePages.SearchStartups | src/pages/StudentHome.tsx:17-32 | a blank term lists every startup; otherwise, in order, exactly those whose name, domain, location or summary contains the term ignoring case, each as often as it is listed (StartupHome.tsx:17-32 is the same) |
| HomePages.EmptyTermListsAll | src/pages/StudentHome.tsx:18-21 | the initial empty term lists every startup |
| HomePages.SearchIgnoresCase | src/pages/StudentHome.tsx:25-28 | terms differing only in letter case find the same startups |
| HomePages.SearchNarrows | src/pages/StudentHome.tsx:23-29 | typing more characters never adds a result |
| HomePages.HomeStats | src/pages/StudentHome.tsx:45-49 | the counters are the fixture counts and the fixed student count 25 |
| HomePages.FixtureStats | src/pages/StartupHome.tsx:45-49 | with the fixtures the counters read 6, 25 and 6 |
| HomePages.HomeButtonsRender | src/pages/StartupHome.tsx:60 | the home pages' buttons open pages that render for a completed profile of the page's role |
| CreateInternship.SkillsAfterAdd | src/pages/CreateInternship.tsx:110-125 | a blank or already listed skill changes nothing; otherwise the trimmed skill is appended and the earlier skills are kept; no duplicates are created |
| CreateInternship.AddOutcomeOf | src/pages/CreateInternship.tsx:110-125 | "ignored" exactly for a blank input; "duplicate" exactly for a non-blank input whose trimmed text is listed; "added" exactly when the list changes |
| CreateInternship.SkillsAfterRemove | src/pages/CreateInternship.tsx:127-133 | every copy of the removed skill is gone and every other skill stays, in order and with all its copies |
| CreateInternship.RemoveUndoesAdd | src/pages/CreateInternship.tsx:110-133 | removing a skill just added restores the list |
| CreateInternship.AddKeepsTrimmed | src/pages/CreateInternship.tsx:123 | only trimmed skills are ever stored |
| CreateInternship.SkillEditor.constructor | src/pages/CreateInternship.tsx:84-95 | no skills and an empty input |
| CreateInternship.SkillEditor.Type | src/pages/CreateInternship.tsx:84 | typing changes only the input |
| CreateInternship.SkillEditor.AddSkill | src/pages/CreateInternship.tsx:110-125 | the list becomes `SkillsAfterAdd`; the input is cleared only on an add |
| CreateInternship.SkillEditor.RemoveSkill | src/pages/CreateInternship.tsx:127-133 | the list becomes `SkillsAfterRemove`; the input is kept |
| CreateInternship.QuestionRows.constructor | src/pages/CreateInternship.tsx:98 | one empty question, rendered as one row |
| CreateInternship.QuestionRows.EditQuestion | src/pages/CreateInternship.tsx:385-399 | typing sets that question in the form's value; the rendered rows keep their old copy |
| CreateInternship.QuestionRows.AddQuestion | src/pages/CreateInternship.tsx:413-423 | below two rendered rows, an empty question is appended and the rows re-render from the form's value |
| CreateInternship.QuestionRows.DeleteQuestion | src/pages/CreateInternship.tsx:401-406 | unless one row is rendered and its rendered question is empty, the chosen question is removed, the others stay in order, and the rows re-render from the form's value |
| CreateInternship.TypingKeepsSoleRowDisabled | src/pages/CreateInternship.tsx:385-406 | typing into the only row leaves its delete button disabled |
| CreateInternship.DeleteEveryQuestion | src/pages/CreateInternship.tsx:385-423 | type into row 1, add row 2, delete it: row 1 can then be deleted, leaving no question |
| CreateInternship.NoQuestionsAllowed | src/pages/CreateInternship.tsx:67-73 | an empty question list is judged like a missing one |
| CreateInternship.DefaultForm | src/pages/CreateInternship.tsx:88-102 | the defaults: no skills and one empty question |
| CreateInternship.DefaultsRejected | src/pages/CreateInternship.tsx:39-77 | the untouched form does not pass the schema |
| CreateInternship.UnansweredQuestionRowRejected | src/pages/CreateInternship.tsx:67-73 | a form whose questions are one empty question is refused |
| CreateInternship.SubmitTarget | src/pages/CreateInternship.tsx:135-145 | navigation to /dashboard exactly when the schema accepts |
| CreateInternship.AddedSkillMeetsBound | src/pages/CreateInternship.tsx:60-62 | after a skill is added the skills bound of the schema holds |
| StudentProfile.ToggleDomain | src/pages/StudentProfile.tsx:111-125 | a clicked domain ends up selected exactly when it was not and fewer than three were; a click at the cap changes nothing; no other domain changes; at most three, no repeats |
| StudentProfile.ToggleTwiceRestores | src/pages/StudentProfile.tsx:111-125 | clicking a domain twice, with room, restores the selection |
| StudentProfile.DomainPicker.constructor | src/pages/StudentProfile.tsx:89 | nothing selected and an empty form field |
| StudentProfile.DomainPicker.SelectDomainAsWritten | src/pages/StudentProfile.tsx:111-128 | the selection toggles but the form field receives the selection from before the click |
| StudentProfile.DomainPicker.SelectDomain | src/pages/StudentProfile.tsx:111-128 | the selection toggles and the form field receives the new selection |
| StudentProfile.StaleDomainsCounterexample | src/pages/StudentProfile.tsx:111-128 | on a fresh picker, one click on "IoT" with the handler as written highlights it while the form field stays empty, and the schema refuses that field |
| StudentProfile.FormFollowsSelection | src/pages/StudentProfile.tsx:68-71 | with the corrected handler the schema's domain bound holds exactly when a domain is highlighted |
| StudentProfile.SubmitAsWritten | src/pages/StudentProfile.tsx:130-144 | goes to /student; the user, and the copy saved in the slot, become the pre-submit user with only the completion flag set, the role write being lost; without a user nothing changes; `loading` is untouched |
| StudentProfile.Submit | src/pages/StudentProfile.tsx:130-144 | goes to /student; the user, and the copy saved in the slot, become the pre-submit user with the student role and a completed profile; without a user nothing changes; `loading` is untouched; the mirror is kept |
| StudentProfile.FirstTimeStudentBounced | src/pages/StudentProfile.tsx:136-137 | a first-time student who submits as written, while the session is not loading, is sent from /student to "/" and the landing page does not move them |
| StudentProfile.SubmitOpensStudentHome | src/pages/StudentProfile.tsx:130-144 | with the corrected submit, and the session not loading, the student home page renders |
| StudentProfile.SubmitOnControllerAsWritten | src/pages/StudentProfile.tsx:130-144 | the controller's new state and the navigation are `SubmitAsWritten` of its old state |
| StudentProfile.SubmitOnController | src/pages/StudentProfile.tsx:130-144 | the controller's new state and the navigation are `Submit` of its old state |
| StartupProfile.Years | src/pages/StartupProfile.tsx:49 | the years 2000 to the current year, in order |
| StartupProfile.YearsMatchSchema | src/pages/StartupProfile.tsx:58-62 | a year is offered exactly when the schema accepts it, and the list ascends |
| StartupProfile.DefaultForm | src/pages/StartupProfile.tsx:99-115 | the defaults: the current year and founder age 25 |
| StartupProfile.DefaultsNeedText | src/pages/StartupProfile.tsx:51-90 | the untouched form is refused |
| StartupProfile.EmptyToNull | src/pages/StartupProfile.tsx:135 | `s \|\| null`: null exactly for the empty string, else the string |
| StartupProfile.ToRow | src/pages/StartupProfile.tsx:127-143 | the row's id is the user's id; the optional links are null exactly when left empty |
| StartupProfile.RowRoundTrip | src/pages/StartupProfile.tsx:127-143 | the written row gives back the form it was made from |
| StartupProfile.SubmitAsWritten | src/pages/StartupProfile.tsx:117-169 | the row is built from the user and the form; without a user the state is unchanged; a failed write does not navigate and leaves a role-less user with the startup role and an unfinished profile (a role holder unchanged); success goes to /startup with the pre-submit user plus only completion, dropping a role set in the same submit; whenever a setter ran, the slot holds the new user; `loading` is untouched |
| StartupProfile.Submit | src/pages/StartupProfile.tsx:117-169 | the whole new user: the pre-submit user with the startup role applied when it had none, and completion set exactly on a successful write; id, email and name kept; without a user nothing changes; `loading` is untouched; the mirror is kept |
| StartupProfile.FirstTimeStartupBounced | src/pages/StartupProfile.tsx:120-153 | a first-time startup that submits as written, while the session is not loading, is sent from /startup to "/" and the landing page does not move it |
| StartupProfile.SubmitOpensStartupHome | src/pages/StartupProfile.tsx:117-169 | with the corrected submit, and the session not loading, the startup home page renders |
| StartupProfile.SubmitOnControllerAsWritten | src/pages/StartupProfile.tsx:117-169 | the controller's new state, the row and the navigation are `SubmitAsWritten` of its old state |
| StartupProfile.SubmitOnController | src/pages/StartupProfile.tsx:117-169 | the controller's new state, the row and the navigation are `Submit` of its old state |
| ProfilePage.EditableFields | src/pages/ProfilePage.tsx:174-449 | every field with an input is a field of the role's record |
| ProfilePage.Reloaded | src/pages/ProfilePage.tsx:61-68 | a user with a role gets that role's record; otherwise the record is kept |
| ProfilePage.WithField | src/pages/ProfilePage.tsx:174 | the typed field holds the text and every other field is untouched |
| ProfilePage.LastEditWins | src/pages/ProfilePage.tsx:174 | of two edits to one field the last counts |
| ProfilePage.EditsCommute | src/pages/ProfilePage.tsx:174-188 | edits to different fields do not interfere |
| ProfilePage.RetypeChangesNothing | src/pages/ProfilePage.tsx:174 | retyping a field's current text changes nothing |
| ProfilePage.ViewOf | src/pages/ProfilePage.tsx:93-130 | the loading view exactly without a user or a record; the student card exactly for a student with a record |
| ProfilePage.RolelessUserStaysLoading | src/pages/ProfilePage.tsx:61-99 | a user with no role never gets past the loading view |
| ProfilePage.RoleHolderSeesOwnCard | src/pages/ProfilePage.tsx:61-130 | a user with a role sees their role's card |
| ProfilePage.Capitalize | src/pages/ProfilePage.tsx:144 | same length; the first letter upper-cased; the rest unchanged |
| ProfilePage.RoleBadges | src/pages/ProfilePage.tsx:318 | the badges read "Student" and "Startup" |
| ProfilePage.ProfilePageState.constructor | src/pages/ProfilePage.tsx:58-59 | not editing, no record |
| ProfilePage.ProfilePageState.OnUserChange | src/pages/ProfilePage.tsx:61-68 | the record becomes `Reloaded`; the edit flag is kept |
| ProfilePage.ProfilePageState.HandleEdit | src/pages/ProfilePage.tsx:70-72 | editing starts; the record is kept |
| ProfilePage.ProfilePageState.HandleSave | src/pages/ProfilePage.tsx:74-81 | editing ends; the edited record is kept |
| ProfilePage.ProfilePageState.HandleCancel | src/pages/ProfilePage.tsx:83-91 | editing ends; the record becomes `Reloaded`, dropping the edits |
| ProfilePage.ProfilePageState.EditField | src/pages/ProfilePage.tsx:174-449 | the record becomes `WithField` of the old one |
| ProfilePage.EditThenCancel | src/pages/ProfilePage.tsx:83-91 | edit, type, cancel returns a role holder to the fixture, out of edit mode |
| ProfilePage.EditThenSave | src/pages/ProfilePage.tsx:74-81 | edit, type, save keeps the typed text and every other field |
| StartupDashboard.MyInternships | src/pages/StartupDashboard.tsx:47-50 | in order, exactly the listings of the given startup, each as often as the fixture has it |
| StartupDashboard.PositionTitle | src/pages/StartupDashboard.tsx:202-212 | "Unknown Position" when no listing matches; any other title is that of the first matching listing; never empty |
| StartupDashboard.TitleOfFirstMatch | src/pages/StartupDashboard.tsx:202-212 | the first listing with an id names the position, whatever follows |
| StartupDashboard.RowOf | src/pages/StartupDashboard.tsx:208-225 | a row carries the application's id, student, date and status, the position title looked up for its listing, and the status's badge |
| StartupDashboard.ListingsTab | src/pages/StartupDashboard.tsx:143 | the empty card exactly when the startup has no listing; otherwise its listings |
| StartupDashboard.ApplicationsTab | src/pages/StartupDashboard.tsx:172-212 | the empty card exactly when there is no application; otherwise one row per application, in order |
| StartupDashboard.HandleUpdateStatus | src/pages/StartupDashboard.tsx:102-108 | the applications are left as they were; the notice ends with the chosen status and a full stop |
| StartupDashboard.UpdateStatusKeepsTable | src/pages/StartupDashboard.tsx:102-108 | choosing a status changes no row of the table |
| StartupDashboard.FixtureListings | src/pages/StartupDashboard.tsx:46-50 | with the fixtures the startup "s1" has exactly the first listing |
| StartupDashboard.FixtureApplications | src/pages/StartupDashboard.tsx:53-101 | the two applications are for "Machine Learning Intern", one pending and one shortlisted |
| AppliedPositions.Lookup | src/pages/AppliedPositions.tsx:52-54 | nothing exactly when no listing has the id; otherwise a listing with that id |
| AppliedPositions.Join | src/pages/AppliedPositions.tsx:51-60 | one entry per application, in order, each with the listing its id looks up |
| AppliedPositions.JoinKeepsApplications | src/pages/AppliedPositions.tsx:51-60 | the join keeps every application as it was, in order |
| AppliedPositions.RowOf | src/pages/AppliedPositions.tsx:108-152 | a row shows the application's id, date and status, the listing's title, startup, mode, duration and deadline, and the status's badge |
| AppliedPositions.Found | src/pages/AppliedPositions.tsx:109 | in order, exactly the entries whose listing was found, each as often as it occurs |
| AppliedPositions.Rows | src/pages/AppliedPositions.tsx:108-152 | one row for each found entry, in order; no more rows than applications |
| AppliedPositions.ViewOf | src/pages/AppliedPositions.tsx:73 | the empty card exactly when there is no application; otherwise the table of `Rows` |
| AppliedPositions.UnknownListingsLeaveEmptyTable | src/pages/AppliedPositions.tsx:73-110 | when no application finds its listing the page shows an empty table, not the empty card |
| AppliedPositions.NoRowsWithoutListings | src/pages/AppliedPositions.tsx:109 | entries without a listing render no row |
| AppliedPositions.AllFoundRowsAligned | src/pages/AppliedPositions.tsx:108-152 | when every listing is found there is one row per application, in order |
| AppliedPositions.LookupFirst | src/pages/AppliedPositions.tsx:52-54 | a listing whose id no earlier listing has is what its id looks up |
| AppliedPositions.FixtureJoin | src/pages/AppliedPositions.tsx:26-60 | with the fixtures the three applications find listings i1, i2 and i5 |
| AppliedPositions.FixtureRows | src/pages/AppliedPositions.tsx:26-152 | the fixture rows name the three positions with pending, shortlisted and rejected badges |

## Left out

- AppRoutes.Resolve: paths are matched exactly, with no case folding and no trailing-slash tolerance; the router's case-insensitive matching and its acceptance of "/student/" for "/student" are not modelled.
- The identity provider, the database and `localStorage` are not called: their answers are parameters (`SessionLookup`, `providerOk`, `upsertOk`, `Stored`).
- The unsubscription on unmount (AuthContext.tsx:126-128) and the re-registration of the listener when `navigate` changes: subscription lifetime is not modelled.
- The concurrency of the `async` handlers: each handler runs to completion as one transition, in the order the caller issues them.
- Toasts, `console` output, `window.open`, `mailto:` links, icons, logos and every presentational component: they change no state the pages read.
- `Login.tsx`, `AboutPage.tsx`, `ContactPage.tsx` and the not-found page are only names in the route table.
- The schemas' e-mail and URL formats and `z.coerce.number` are not modelled: numeric fields are integers after coercion, e-mail and URL fields are unconstrained text.
- Dates: the current date and year are parameters; `toLocaleDateString` is not modelled and dates are shown as stored.
- String lengths count characters, not UTF-16 code units; `toLowerCase` and `toUpperCase` are ASCII-only.
- The dashboard's `activeTab` state is not modelled: both tabs' contents are computed.
- `CreateInternship.QuestionRows`: a row is its question text; the rendered copy is modelled as taken from the form's value on every append and remove, as react-hook-form's field array does; the rows' generated ids and input re-registration are not modelled.
- ProfilePage.WithField: every edit stores the input's text, so a numeric field such as `birthYear` holds text after an edit, as in the source; the type change is not reported.
- StartupDashboard.HandleUpdateStatus: the database update the source only mentions in a comment is not modelled; the handler changes nothing, as written.
- The fixture startups' and internships' long descriptions are modelled as the text they hold; only ids, titles, modes and startup ids are used by the proofs.

## Findings

| source | as written | input that shows it | evidently intended | confidence | as-written member | corrected member |
|---|---|---|---|---|---|---|
| src/pages/StudentProfile.tsx:136-137 | `setUserType` and `setProfileCompleted` both rebuild the user from the same render's `user`, so the second write restores the old `userType` | a signed-in user with no role submits the form | the user ends with the student role and a completed profile and lands on the student home page | not executed | StudentProfile.FirstTimeStudentBounced | StudentProfile.SubmitOpensStudentHome |
| src/pages/StartupProfile.tsx:120-153 | the role set at line 121 is overwritten by the completion write at line 153, built from the same stale `user` | a signed-in user with no role submits the form and the write succeeds | the user ends with the startup role and a completed profile and lands on the startup home page | not executed | StartupProfile.FirstTimeStartupBounced | StartupProfile.SubmitOpensStartupHome |
| src/pages/StudentProfile.tsx:127 | the form field receives `selectedDomains` from before the click, not the updated selection | from an empty picker, one click on "IoT" | the form field equals the highlighted selection, so one click satisfies the domain bound | not executed | StudentProfile.StaleDomainsCounterexample | StudentProfile.FormFollowsSelection |
