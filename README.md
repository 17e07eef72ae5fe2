# SPAC assessment platform: a Dafny model of its decision core

SPAC is a web application in which candidates fill in a personality and
competency assessment and HR staff review the results. Most of the code is
React pages that forward data to a hosted database. This project models the
small decision procedures and in-memory state updates underneath, and proves
properties about them:

- **Authorization.** The repository has three overlapping mechanisms, and each is modelled as written:
  - `Auth`: the grant table of `src/lib/auth.ts`;
  - `ProtectedRoute`: the client-side rank guard;
  - `Middleware`: the path-prefix request gate.
  `AuthGates` sets the three side by side for the administration pages and proves that they disagree.
- **Validators.**
  - `Security` models password rule checking, the strength score and the e-mail shape check.
  - `Sanitizer` models the input sanitizer.
- **Checkbox assessment.**
  - `StateManager` models the mutable `state` object as a class.
  - `AssessmentFlow` models the handlers of `src/lib/main.js` and the grouping of questions by page. It uses `Sorting` for `Array.prototype.sort`.
- **Likert steps.**
  - `StepPages` is one class for the step 2, 3 and 4 pages.
  - `AssessmentForm` models the single-page form.
  - `Navigator` holds the index moves they share.
- **Route handlers.** `ScoresRoute`, `CandidatesRoute` and `CompleteRoute` model the validation, the arithmetic and the record each one builds. Shared reply shapes live in `ApiCommon`.
- **Support modules.** `JsModel` holds the JavaScript semantics the model needs: truthiness, `||`, the key order of integer-keyed objects, `reduce` with `+`, and `filter`. `Wrappers` holds `Option`.

Calls to the database, `fetch`, the router and `alert` are not executed by
the model. Each handler takes their results as parameters, and it records what
it sends and where it navigates in its state or its result. The current
time is a parameter (`now`).

Two behaviours of the code are worth noting:

- The request gate admits ADMIN and RH to `/admin…` and turns SUPER_ADMIN away (`src/middleware.ts:50`).
- The completion route never writes a falsy `completed`: `false` and a missing value become `true`, and a truthy value is written as sent (`src/app/api/v1/candidates/complete/route.ts:18`).

## Model

| member | source | states |
|---|---|---|
| `JsModel.Or` | src/app/api/v1/candidates/complete/route.ts:18-19 | `a \|\| b` yields `a` when it is truthy and `b` otherwise; the result is truthy iff either operand is |
| `JsModel.SortedKeys` | src/lib/main.js:123 | integer keys enumerate once each, strictly ascending, exactly the object's keys |
| `JsModel.Values` | src/app/api/v1/scores/route.ts:16 | `Object.values` yields one value per key: the i-th value is the one stored under the i-th smallest key (used for the answers here and for the page groups at `src/lib/main.js:123`) |
| `JsModel.Without` | src/lib/state_manager.js:37 | `filter(id => id !== x)` keeps exactly the elements other than `x`, never grows, and keeps a duplicate-free list duplicate-free |
| `JsModel.WithoutAbsent` | src/lib/state_manager.js:37 | filtering out a value that does not occur returns the list unchanged |
| `JsModel.WithoutIsSubsequence` | src/lib/state_manager.js:37 | the filtered list keeps the remaining elements in their original order |
| `Auth.HasPermission` | src/lib/auth.ts:36-51 | SUPER_ADMIN is always granted; any other role is granted iff an entry of its own list matches the resource or `*` and the action or `manage` |
| `Auth.CanAccess` | src/lib/auth.ts:54-60 | always agrees with `hasPermission` |
| `Auth.HasPermissionIsExpandedGrant` | src/lib/auth.ts:11-51 | for every role, resource and action, the lookup agrees with a hand-expanded table of each role's grants |
| `Auth.SuperAdminHoldsEverything` | src/lib/auth.ts:44 | SUPER_ADMIN holds every (resource, action) pair |
| `Auth.ManageGrantsEveryAction` | src/lib/auth.ts:41-50 | an entry with action `manage` grants all five actions on its resource |
| `Auth.ManageExamples` | src/lib/auth.ts:22-25 | RH may delete `candidates`, and ADMIN may create `users` |
| `Auth.NoInheritanceUpTheRanks` | src/lib/auth.ts:18-29 | RH may read `candidates` but ADMIN may not: grants are not inherited up the ranks |
| `Auth.IsUserActive` | src/lib/auth.ts:85-94 | inactive exactly when `is_active` is false or `locked_until` is strictly later than now (an unparseable date does not lock) |
| `Auth.CanUserLogin` | src/lib/auth.ts:97-106 | login is allowed iff the user is active and has fewer than five failed attempts |
| `Auth.ExpiredLockStillBlocksAfterFiveFailures` | src/lib/auth.ts:97-106 | once a lock has expired, activity depends on `is_active` alone, yet five failures still block login |
| `Auth.CheckRouteAccess` | src/lib/auth.ts:158-178 | a route that is neither mapped nor an inherited name is allowed; a name inherited from `Object.prototype` (`constructor`, `toString`, …) is found by the lookup and then allowed to SUPER_ADMIN alone; a mapped route is allowed iff `canAccess` holds for its (resource, action) pair |
| `Auth.OnlySuperAdminHoldsWildcard` | src/lib/auth.ts:11-33 | only SUPER_ADMIN's list has a `*` entry, which is why an `undefined` resource is denied to every other role |
| `Auth.InheritedNameDeniedUnmappedAllowed` | src/lib/auth.ts:173-175 | `checkRouteAccess('CANDIDATE', 'constructor')` is false, while an unmapped path is allowed |
| `Auth.TopLevelRoutesOnlyForSuperAdmin` | src/lib/auth.ts:162-170 | `/dashboard`, `/settings` and `/admin` are allowed to SUPER_ADMIN and to no other role |
| `Auth.AdministrationRoutesForAdmins` | src/lib/auth.ts:165-171 | `/admin/users` and `/settings/users` are allowed exactly to ADMIN and SUPER_ADMIN |
| `ProtectedRoute.MeetsRankFollowsHierarchy` | src/components/auth/ProtectedRoute.tsx:67-78 | the rank test passes iff the profile's role stands at or above the required role in CANDIDATE < RH < ADMIN < SUPER_ADMIN |
| `ProtectedRoute.Guard.constructor` | src/components/auth/ProtectedRoute.tsx:27-28 | the guard starts unauthorized and checking, with nothing pushed |
| `ProtectedRoute.Guard.CheckAuthorization` | src/components/auth/ProtectedRoute.tsx:30-91 | the effect updates the flags and the navigation as the decision function `Outcome` prescribes, including the early returns and the `finally` |
| `ProtectedRoute.Render` | src/components/auth/ProtectedRoute.tsx:93-130 | the spinner shows iff loading or checking; the children show iff neither holds and access is authorized; otherwise the fallback or the denial view |
| `ProtectedRoute.GrantedExactlyWhenAllChecksPass` | src/components/auth/ProtectedRoute.tsx:43-81 | from the initial state, access is granted iff the user is signed in, the profile exists and is active, and both requested checks pass |
| `ProtectedRoute.GrantNeedsEveryCheck` | src/components/auth/ProtectedRoute.tsx:43-81 | from any state, a run that newly grants had a found, active profile that passed both checks |
| `ProtectedRoute.NoRequirementAdmitsActiveProfiles` | src/components/auth/ProtectedRoute.tsx:57-81 | with neither requirement, any found and active profile is authorized |
| `ProtectedRoute.ExceptionFailsClosed` | src/components/auth/ProtectedRoute.tsx:82-84 | an exception during the check leaves access denied and checking finished |
| `ProtectedRoute.MissingOrInactiveRedirects` | src/components/auth/ProtectedRoute.tsx:43-54 | a missing or inactive profile requests `/auth/login` and grants nothing, leaving `authorized` as it was |
| `ProtectedRoute.EarlierGrantSurvivesMissingProfile` | src/components/auth/ProtectedRoute.tsx:43-47 | a grant from an earlier run survives a later run that finds no profile, so the children stay rendered while the login redirect is requested |
| `ProtectedRoute.LockAndAttemptsIgnored` | src/components/auth/ProtectedRoute.tsx:50 | neither `locked_until` nor `failed_login_attempts` changes the outcome |
| `ProtectedRoute.NoUserSpinsForever` | src/components/auth/ProtectedRoute.tsx:34-37 | with no user, checking is never cleared and only the spinner is rendered while the login redirect is requested |
| `ProtectedRoute.LoadingShowsOnlySpinner` | src/components/auth/ProtectedRoute.tsx:32 | while auth is loading the effect changes nothing and only the spinner is rendered |
| `ProtectedRoute.WrapperAdmits` | src/components/auth/ProtectedRoute.tsx:134-158 | `AdminRoute` admits ADMIN and SUPER_ADMIN, `RHRoute` every role but CANDIDATE, and `SuperAdminRoute` only SUPER_ADMIN |
| `Middleware.Decide` | src/middleware.ts:5-78 | anonymous protected paths go to login with `redirect`; signed-in auth paths go to the dashboard, and every other signed-in path outside `/admin…` passes; signed-in `/admin…` passes iff the stored role is ADMIN or RH; unclassified paths always pass; a session error passes; every pass carries the four headers |
| `Middleware.Headers.constructor` | src/middleware.ts:6 | a fresh response has no headers |
| `Middleware.Headers.Set` | src/middleware.ts:61-64 | `headers.set` replaces one entry and keeps the others |
| `Middleware.SetSecurityHeaders` | src/middleware.ts:61-64 | the four `set` calls add exactly the four security headers |
| `Middleware.HandleRequest` | src/middleware.ts:5-78 | the statement-by-statement gate, with its in-place header updates, returns what `Decide` prescribes |
| `Middleware.PrefixOverreach` | src/middleware.ts:20-26 | `/formulario` and `/administrator` count as protected, and the latter as an admin path |
| `Middleware.AuthRoutesAreNotProtected` | src/middleware.ts:17-26 | the auth routes match none of the protected prefixes |
| `Middleware.AnonymousAuthRoutePasses` | src/middleware.ts:29-66 | an anonymous request for an auth route passes with the headers |
| `Middleware.AdminGateByRole` | src/middleware.ts:42-58 | signed-in admin requests from SUPER_ADMIN or CANDIDATE go to the dashboard; ADMIN and RH pass |
| `Middleware.SessionErrorFailsOpen` | src/middleware.ts:67-77 | if retrieving the session throws, every path passes with the headers |
| `AuthGates.RoleName` | src/lib/auth.ts:11-33 | the stored name is `ADMIN` or `RH` exactly for those two roles, the names the request gate tests, and `SUPER_ADMIN` exactly for SUPER_ADMIN |
| `AuthGates.RoleNamesDistinct` | src/lib/auth.ts:11-33 | distinct roles are stored under distinct names |
| `AuthGates.MiddlewareAdmits` | src/middleware.ts:50 | the request gate admits exactly ADMIN and RH to `/admin` |
| `AuthGates.AdminRouteAdmits` | src/components/auth/ProtectedRoute.tsx:134-140 | `AdminRoute` admits exactly ADMIN and SUPER_ADMIN |
| `AuthGates.NoRolePassesAllAdminGates` | src/lib/auth.ts:168 | no role passes the request gate, `AdminRoute` and `checkRouteAccess('/admin')` together |
| `Security.AnyIsSomePosition` | src/lib/security.ts:114-126 | a character-class test holds iff some position of the password is in the class |
| `Security.TripleRepeatIsSomePosition` | src/lib/security.ts:157 | `/(.)\1{2,}/` matches iff some character (not a line terminator) occurs three times in a row |
| `Security.PairRepeatIsSomePosition` | src/lib/security.ts:158 | `/(.)(.)\1\2/` matches iff some two characters (not line terminators) repeat at once |
| `Security.ViolatedIsExact` | src/lib/security.ts:110-128 | the reported rules are exactly the rules the password breaks, in the order length, uppercase, lowercase, digit, special |
| `Security.ErrorCountIsViolationCount` | src/lib/security.ts:110-128 | the number of errors is the number of violated rules among the five |
| `Security.AcceptedIffAllRulesHold` | src/lib/security.ts:130-133 | there are no errors iff all five rules hold, which implies at least eight characters |
| `Security.ValidatePassword` | src/lib/security.ts:104-134 | the pushed errors are the messages of the violated rules in check order, and `isValid` holds iff there are none |
| `Security.StrengthScoreRange` | src/lib/security.ts:146-158 | the score is a multiple of 10 in [0, 100] |
| `Security.CalculatePasswordStrength` | src/lib/security.ts:137-176 | the accumulated score, the level and the feedback are those the nine criteria and the two threshold chains prescribe |
| `Security.RateScore` | src/lib/security.ts:161-173 | the level thresholds 30/50/70/90 and the feedback pushes, for any score |
| `Security.LevelIsMonotone` | src/lib/security.ts:161-166 | a higher score never gives a lower level |
| `Security.FeedbackCount` | src/lib/security.ts:169-173 | feedback is never empty: 4 messages below 30, 3 for 30-49, 2 for 50-69, 1 from 70 |
| `Security.AcceptedPasswordIsAtLeastMedium` | src/lib/security.ts:110-166 | a password that `validatePassword` accepts scores at least 60, so at least `medium` |
| `Security.FourOfAKindHitsBothPatterns` | src/lib/security.ts:157-158 | four equal characters in a row trip both repetition patterns, capping the score at 80 |
| `Security.ShapeOfRegexMatch` | src/lib/security.ts:190 | a match of `^[^\s@]+@[^\s@]+\.[^\s@]+$`, given its split points, has the e-mail shape |
| `Security.RegexMatchOfShape` | src/lib/security.ts:190 | each string of the e-mail shape matches the regular expression |
| `Security.RegexMatchIffShape` | src/lib/security.ts:190 | the regular expression matches iff: no whitespace, exactly one `@`, a non-empty local part, and a `.` in the domain that is neither its first nor its last character |
| `Security.ValidateEmail` | src/lib/security.ts:189-192 | `validateEmail` holds iff the string has that shape |
| `Security.MinimalEmailAccepted` | src/lib/security.ts:190 | `a@b.c` is accepted |
| `Security.DotFirstInDomainRejected` | src/lib/security.ts:190 | `a@.com` is rejected |
| `Security.TwoAtSignsRejected` | src/lib/security.ts:190 | `a@b@c.d` is rejected |
| `Sanitizer.TrimStart` | src/lib/security.ts:181 | the front trim never lengthens and leaves no leading whitespace |
| `Sanitizer.TrimStartIsSuffix` | src/lib/security.ts:181 | the front trim is a suffix of its input |
| `Sanitizer.TrimStartDropsWhitespace` | src/lib/security.ts:181 | everything the front trim drops is whitespace |
| `Sanitizer.TrimEnd` | src/lib/security.ts:181 | the back trim never lengthens and leaves no trailing whitespace |
| `Sanitizer.TrimEndIsPrefix` | src/lib/security.ts:181 | the back trim is a prefix of its input |
| `Sanitizer.TrimEndDropsWhitespace` | src/lib/security.ts:181 | everything the back trim drops is whitespace |
| `Sanitizer.Trim` | src/lib/security.ts:181 | `trim()` never lengthens and leaves neither leading nor trailing whitespace |
| `Sanitizer.TrimFixesTrimmed` | src/lib/security.ts:181 | `trim()` changes nothing iff the string is already trimmed, and it shortens whatever it changes |
| `Sanitizer.StripAngles` | src/lib/security.ts:182 | removing `<` and `>` never lengthens and leaves none |
| `Sanitizer.StripAnglesKeepsOthers` | src/lib/security.ts:182 | a character survives iff it occurs in the input and is not an angle bracket |
| `Sanitizer.StripAnglesFixesNoAngles` | src/lib/security.ts:182 | the removal changes nothing iff there are no angle brackets, and shortens whatever it changes |
| `Sanitizer.StartsWithFolded` | src/lib/security.ts:183 | a case-insensitive prefix match needs at least the pattern's length |
| `Sanitizer.RemoveFolded` | src/lib/security.ts:183-185 | left-to-right case-insensitive removal of `javascript:` or `data:` never lengthens |
| `Sanitizer.RemoveFoldedFixesClean` | src/lib/security.ts:183-185 | the removal changes nothing iff the pattern does not occur, and shortens whatever it changes |
| `Sanitizer.RemoveFoldedKeepsChars` | src/lib/security.ts:183-185 | the removal introduces no new characters |
| `Sanitizer.WordRun` | src/lib/security.ts:184 | `\w+` consumes a run of word characters up to the first other character |
| `Sanitizer.WordRunIsWordChars` | src/lib/security.ts:184 | every character the run consumes is a word character |
| `Sanitizer.HandlerMatch` | src/lib/security.ts:184 | a match of `on\w+=` is at least four characters, begins with `on` in any case and ends with `=` |
| `Sanitizer.RemoveHandlers` | src/lib/security.ts:184 | removing the handler matches never lengthens |
| `Sanitizer.RemoveHandlersFixesClean` | src/lib/security.ts:184 | the removal changes nothing iff no handler pattern occurs, and shortens whatever it changes |
| `Sanitizer.RemoveHandlersKeepsChars` | src/lib/security.ts:184 | the removal introduces no new characters |
| `Sanitizer.SanitizeInput` | src/lib/security.ts:179-186 | the output is never longer than the input |
| `Sanitizer.SanitizedHasNoAngles` | src/lib/security.ts:179-186 | the output contains no `<` or `>` |
| `Sanitizer.SanitizeChangesOrShortens` | src/lib/security.ts:179-186 | an output as long as the input is the input itself |
| `Sanitizer.CleanIsFixed` | src/lib/security.ts:179-186 | a trimmed string with no angle brackets, schemes or handlers comes back unchanged |
| `Sanitizer.FixedIsClean` | src/lib/security.ts:179-186 | a string the sanitizer leaves unchanged has none of the removed patterns |
| `Sanitizer.SinglePassLeavesDataScheme` | src/lib/security.ts:185 | `dadata:ta:` sanitizes to `data:`, which still contains the scheme meant to be removed |
| `Sanitizer.SanitizeFully` | src/lib/security.ts:179-186 | repeating the chain to a fixed point yields a clean string no longer than the input |
| `Sanitizer.SanitizeFullyKeepsClean` | src/lib/security.ts:179-186 | the repeated chain leaves clean input unchanged |
| `Sanitizer.SanitizeFullyIdempotent` | src/lib/security.ts:179-186 | the repeated chain is idempotent, and `sanitizeInput` accepts its output unchanged |
| `Sorting.Insert` | src/lib/main.js:120 | inserting into a sorted list keeps it sorted and adds exactly that element |
| `Sorting.SortBy` | src/lib/main.js:120-123 | sorting by a numeric comparator gives a sorted permutation of the input |
| `Sorting.SortBySorted` | src/lib/main.js:123 | an already sorted list sorts to itself |
| `Sorting.SortByMembers` | src/lib/main.js:120-123 | sorting keeps exactly the elements it was given |
| `StateManager.AddedContains` | src/lib/state_manager.js:26-33 | after `addAnswer(q, o)`, `o` is among `q`'s answers |
| `StateManager.AddedIdempotent` | src/lib/state_manager.js:30-32 | adding an option that is already present changes nothing, so adding twice equals adding once |
| `StateManager.AddedAppends` | src/lib/state_manager.js:31 | a new option goes at the end and the earlier ones keep their order |
| `StateManager.AddedKeepsOthers` | src/lib/state_manager.js:26-33 | `addAnswer` leaves every other question's answers unchanged |
| `StateManager.AddedWellFormed` | src/lib/state_manager.js:26-33 | `addAnswer` keeps every list non-empty and duplicate-free |
| `StateManager.RemovedDropsOnlyThat` | src/lib/state_manager.js:35-42 | after `removeAnswer(q, o)`, `o` is gone, every other option of `q` stays, and their order is kept |
| `StateManager.RemovedAbsentIsNoOp` | src/lib/state_manager.js:36-37 | removing an option that is not there, including from an unknown question, changes nothing |
| `StateManager.RemovedKeepsOthers` | src/lib/state_manager.js:35-42 | `removeAnswer` leaves every other question's answers unchanged |
| `StateManager.RemovedWellFormed` | src/lib/state_manager.js:38-40 | `removeAnswer` deletes a list once it is emptied and keeps lists duplicate-free |
| `StateManager.AssessmentState.constructor` | src/lib/state_manager.js:1-10 | the initial object: empty candidate, page 1, no pages, no questions, no answers |
| `StateManager.AssessmentState.SetCandidate` | src/lib/state_manager.js:12-15 | replaces the candidate and nothing else |
| `StateManager.AssessmentState.SetQuestions` | src/lib/state_manager.js:17-20 | stores the page groups and sets the page count to their number |
| `StateManager.AssessmentState.SetCurrentPage` | src/lib/state_manager.js:22-24 | replaces the current page and nothing else |
| `StateManager.AssessmentState.AddAnswer` | src/lib/state_manager.js:26-33 | changes only the answers, as `Added` prescribes |
| `StateManager.AssessmentState.RemoveAnswer` | src/lib/state_manager.js:35-42 | changes only the answers, as `Removed` prescribes |
| `StateManager.AssessmentState.GetAnswersForQuestion` | src/lib/state_manager.js:44-46 | returns the stored list, or the empty list for an unknown question |
| `AssessmentFlow.OptionsOf` | src/lib/main.js:120 | the filter keeps exactly the options whose `pergunta_id` is the question's id |
| `AssessmentFlow.AttachedOptions` | src/lib/main.js:120 | each question's options are exactly its own, ascending by id |
| `AssessmentFlow.PagesOfMembers` | src/lib/main.js:116-119 | a page has a group iff some question falls on it |
| `AssessmentFlow.GroupingStep` | src/lib/main.js:116-122 | one loop iteration files one more question under its page |
| `AssessmentFlow.GroupingKeys` | src/lib/main.js:115-122 | the dictionary's keys are exactly the pages that occur |
| `AssessmentFlow.GroupingContents` | src/lib/main.js:116-122 | each group holds its page number and that page's questions in input order |
| `AssessmentFlow.QuestionsOnAbsentPage` | src/lib/main.js:116-122 | a page that no question falls on has no questions |
| `AssessmentFlow.ValuesByPageAt` | src/lib/main.js:123 | the i-th value is the group filed under the i-th smallest page |
| `AssessmentFlow.ValuesByPageOrdered` | src/lib/main.js:123 | the values come out with strictly ascending pages, each the group of its page |
| `AssessmentFlow.ValuesByPageCovers` | src/lib/main.js:123 | every page of the dictionary appears among the values |
| `AssessmentFlow.GroupedByPageSpec` | src/lib/main.js:114-124 | one group per distinct page, strictly ascending, each holding exactly that page's questions in input order with their sorted options |
| `AssessmentFlow.GroupQuestionsByPage` | src/lib/main.js:114-124 | the loop that fills the dictionary, followed by the sort, returns exactly the grouping specified above |
| `AssessmentFlow.HandleCheckboxChange` | src/lib/main.js:127-146 | a check adds the option unless five are already checked, in which case the box is unchecked and the limit banner shown; an uncheck removes it; nothing else in the state changes |
| `AssessmentFlow.SixthCheckRefused` | src/lib/main.js:134-139 | checking a sixth option leaves the answers unchanged |
| `AssessmentFlow.CheckboxKeepsCap` | src/lib/main.js:134-145 | through the checkbox handler no question exceeds five options, and lists stay non-empty and duplicate-free |
| `AssessmentFlow.UncheckRemovesExactly` | src/lib/main.js:142-145 | unchecking removes exactly that option of that question and touches no other question |
| `AssessmentFlow.BackPageBounds` | src/lib/main.js:65-72 | back never drops below page 1 and otherwise steps back by exactly one |
| `AssessmentFlow.HandleBackButtonClick` | src/lib/main.js:65-72 | only the current page changes, to the page back prescribes |
| `AssessmentFlow.FindPage` | src/lib/main.js:78 | `find` returns the first group with the wanted page, every earlier group having another page, or nothing when no group has it |
| `AssessmentFlow.HandleNextButtonClick` | src/lib/main.js:74-99 | the scan over the page's questions gives the outcome `NextResultOf` prescribes, and the page advances by one exactly on `Advanced`, with nothing else changing |
| `AssessmentFlow.NextAdvancesOnlyWhenAllowed` | src/lib/main.js:74-98 | next advances iff the current page exists, is not the last, and no question on it has more than five options; it never passes the page count |
| `AssessmentFlow.CapRulesOutLimitError` | src/lib/main.js:79-85 | while the checkbox cap holds, the limit error of next never fires |
| `AssessmentFlow.GapInPagesStalls` | src/lib/main.js:78 | with pages numbered 1 and 3, next from page 1 reaches page 2, for which no group exists |
| `ScoresRoute.AverageScore` | src/app/api/v1/scores/route.ts:17 | the average is NaN exactly when there are no answers |
| `ScoresRoute.AverageTimesCount` | src/app/api/v1/scores/route.ts:16-17 | for non-empty answers, the average times the number of answers is the total |
| `ScoresRoute.MeanTimesCount` | src/app/api/v1/scores/route.ts:17 | a positive-count mean times the count gives back the total |
| `ScoresRoute.Post` | src/app/api/v1/scores/route.ts:4-53 | inserts iff the body parses and all four fields are truthy; the record copies them with the sum and the average; 400, 500 and success replies as written |
| `ScoresRoute.StepZeroRejected` | src/app/api/v1/scores/route.ts:8-13 | step 0 is refused with 400 and nothing inserted |
| `ScoresRoute.EmptyAnswersStoreNaN` | src/app/api/v1/scores/route.ts:8-17 | an empty answers object passes validation and is stored with total 0 and the unguarded 0/0 average |
| `ScoresRoute.LikertAverageInRange` | src/app/api/v1/scores/route.ts:16-17 | answers in 1..5 give a total between the count and five times it, and an average in [1, 5] |
| `ScoresRoute.AverageWithinBounds` | src/app/api/v1/scores/route.ts:17 | an average of a total between the count and five times it lies in [1, 5] |
| `CandidatesRoute.Post` | src/app/api/v1/candidates/route.ts:4-48 | inserts iff `nome` and `email` are truthy; the record copies the five fields; 400, 500 and success replies as written |
| `CandidatesRoute.EmptyNameOrEmailRejected` | src/app/api/v1/candidates/route.ts:8-13 | an empty name or e-mail gives 400 with no insert |
| `CandidatesRoute.ParamOr` | src/app/api/v1/candidates/route.ts:53-54 | an absent parameter takes its default, a present one its parsed value |
| `CandidatesRoute.RequestedRange` | src/app/api/v1/candidates/route.ts:55-60 | the inclusive range starts at a row index and has exactly `limit` slots |
| `CandidatesRoute.ConsecutivePagesAdjacent` | src/app/api/v1/candidates/route.ts:55-60 | the next page's range starts right after this page's range ends |
| `CandidatesRoute.RowInExactlyOnePage` | src/app/api/v1/candidates/route.ts:55-60 | every row index lies in the range of exactly one page |
| `CandidatesRoute.TotalPagesIsCeiling` | src/app/api/v1/candidates/route.ts:77 | zero rows give zero pages; otherwise the last page holds at least one and at most `limit` rows |
| `CandidatesRoute.Get` | src/app/api/v1/candidates/route.ts:50-87 | requests the page's range; an error gives 500; otherwise the rows, the echoed page and limit, the count or 0, and the ceiling page count |
| `CandidatesRoute.DefaultsRequestFirstTen` | src/app/api/v1/candidates/route.ts:53-76 | with no parameters rows 0..9 are requested, and a missing count is reported as total 0 with 0 pages |
| `CompleteRoute.Post` | src/app/api/v1/candidates/complete/route.ts:4-44 | updates iff the body parses and `userId` is truthy, targeting only that id; 400, 500 and success replies as written |
| `CompleteRoute.CompletionFields` | src/app/api/v1/candidates/complete/route.ts:17-21 | `completed` is always truthy, and `true` whenever the client sent a boolean or a falsy value; `completed_at` is the client's value if truthy and otherwise now; `updated_at` is now |
| `CompleteRoute.FalseIsOverridden` | src/app/api/v1/candidates/complete/route.ts:18 | a client sending `completed: false` is still marked complete |
| `Navigator.NavigationStaysInRange` | src/app/form/step2/page.tsx:86-96 | from an index in [0, n-1], next and previous stay in range, move by one, and do nothing at the ends |
| `StepPages.StepPage.constructor` | src/app/form/step2/page.tsx:70-72 | a page starts on question 0 with no answers, not loading, and nothing sent |
| `StepPages.StepPage.HandleAnswer` | src/app/form/step2/page.tsx:79-84 | overwrites that question's answer and nothing else |
| `StepPages.StepPage.HandleNext` | src/app/form/step2/page.tsx:86-90 | moves to the next question unless on the last |
| `StepPages.StepPage.HandlePrevious` | src/app/form/step2/page.tsx:92-96 | moves to the previous question unless on the first |
| `StepPages.StepPage.HandleSubmit` | src/app/form/step2/page.tsx:98-133 | the gate, the score request, for step 4 the completion request, the navigation, the alerts and the reset of `loading`, as `SubmitOutcome` prescribes |
| `StepPages.AnswerKeepsConsistent` | src/app/form/step2/page.tsx:178-181 | clicking one of the five buttons records a value in 1..5 for a question of the step, keeping the page consistent |
| `StepPages.NavigationKeepsConsistent` | src/app/form/step3/page.tsx:86-96 | next and previous keep the index in range |
| `StepPages.IdsDistinct` | src/app/form/step3/page.tsx:14-65 | each step's question ids are distinct |
| `StepPages.SubsetOfDistinct` | src/app/form/step4/page.tsx:74-77 | answered ids drawn from a list of distinct ids are at most as many, and as many iff every id is answered |
| `StepPages.GatePassesIffAllAnswered` | src/app/form/step2/page.tsx:99-102 | on a consistent page the length gate passes iff every question of the step is answered |
| `StepPages.IncompleteSubmitSendsNothing` | src/app/form/step4/page.tsx:74-77 | an incomplete submit only raises the alert: nothing is sent and nothing else changes |
| `StepPages.SubmitPastGate` | src/app/form/step3/page.tsx:104-132 | past the gate the score request carries the user, the step's number and type and the answers unchanged; the page navigates, to the next step and with no new alert, exactly when the score reply was OK (and on step 4 the completion request was not rejected); otherwise it alerts without navigating; `loading` ends false |
| `StepPages.CompletionAfterScoreOnly` | src/app/form/step4/page.tsx:96-114 | step 4 sends the completion request, with `completed: true`, only after an OK score reply, and navigates to `/form/finish` whatever the completion reply was |
| `StepPages.EarlyStepsSendOnlyTheScore` | src/app/form/step2/page.tsx:104-126 | steps 2 and 3 send exactly one request |
| `AssessmentForm.RowsFor` | src/app/form/page.tsx:89-93 | one row per answered question |
| `AssessmentForm.RowsMatchAnswers` | src/app/form/page.tsx:89-93 | each row carries the user id, an answered question's numeric id and its value; the ids are strictly ascending; every answered question has a row |
| `AssessmentForm.FormPage.constructor` | src/app/form/page.tsx:28-33 | the loaded page starts on question 0 with no answers, not submitting and no error |
| `AssessmentForm.FormPage.HandleAnswerSelect` | src/app/form/page.tsx:61-66 | overwrites that question's answer and nothing else |
| `AssessmentForm.FormPage.HandleNext` | src/app/form/page.tsx:68-72 | moves to the next question unless on the last |
| `AssessmentForm.FormPage.HandlePrev` | src/app/form/page.tsx:74-78 | moves to the previous question unless on the first |
| `AssessmentForm.FormPage.HandleSubmit` | src/app/form/page.tsx:80-108 | the session check, the insert, the error or the dashboard navigation, and the reset of `submitting`, as `SubmitOutcome` prescribes |
| `AssessmentForm.NoUserInsertsNothing` | src/app/form/page.tsx:81-84 | with no user only the session error is set and nothing is inserted |
| `AssessmentForm.SubmitWithUser` | src/app/form/page.tsx:86-107 | with a user exactly one batch, the rows of the current answers, is inserted; a failure sets the error, stays and resets `submitting`; a success navigates to `/dashboard` with `submitting` still set |
| `AssessmentForm.SubmitChecksOnlyLastQuestion` | src/app/form/page.tsx:193-196 | with the last of two questions answered and the first not, submit is enabled and inserts a single row |

## Left out

- Database and network calls are not modelled as code: `getUserProfile`, the insert, update and select chains, `fetch`, `src/lib/api.js` and `src/hooks/useApi.ts`. Their results are parameters of the handlers (`ProfileLookup`, `RoleLookup`, `StoreResult`, `CountedRows`, `FetchResult`, `InsertResult`).
- `recordLoginAttempt` is not modelled. It interleaves several database writes and stores a pending RPC result in a column, so its counter semantics cannot be fixed from the code. Only the pure predicates `isUserActive` and `canUserLogin` are modelled.
- `generateSecureToken` is not modelled, because it depends on `Math.random`.
- `isProduction` and `getConfigByEnvironment` are not modelled, because they depend on the environment.
- The policy constants of `security.ts` appear as fixed values: every `PASSWORD_POLICY` flag is on and the minimum length is 8.
- The clock is a parameter `now`.
- The two `new Date()` calls of the completion route are taken as one instant.
- Rendering, JSX and the DOM are not modelled. The step-1 page, the finish, dashboard and settings pages and the UI components are outside the core. In `main.js` this covers `navigateToPage`, `updateProgress`, `showLoading` and the button-label test, which is a parameter of the next handler.
- The limit banner is modelled in the checkbox handler. `HandleNextButtonClick` returns `LimitExceeded` instead of showing it.
- `handleFinalSubmit` and `submitAssessment` are not modelled (foreign I/O). Next on the last page returns `FinalSubmit`.
- The question-loading effect of `src/app/form/page.tsx` is not modelled. The loaded question ids are passed to the `FormPage` constructor.
- The `disabled` attributes of the step pages' buttons are not modelled. Only the gate inside `handleSubmit` is.
- `SubmitEnabled` of the single-page form covers the final button only. The disabled "Próxima" button (`src/app/form/page.tsx:198`) is not modelled; with it, and since answers are never removed, clicking through the page always answers every earlier question, so the state of `SubmitChecksOnlyLastQuestion` is not reachable that way.
- The async handlers run as sequential scripts. Re-entrancy, and the intermediate `loading`/`submitting` true state seen while a request is in flight, are not modelled; the model records the final state.
- `parseInt` yielding NaN is not modelled. Non-integer checkbox values, a `limit` of 0 and fractional JSON numbers are not modelled either. `CandidatesRoute.Get` requires a present `page` and `limit` to be at least 1.
- Answer values in the scores route are integers. Float rounding of `average_score` is not modelled: the average is an exact real, or NaN.
- Strings are sequences of Unicode scalar values. Characters outside the Basic Multilingual Plane, whose JavaScript length is 2, are not modelled, and neither are lone surrogates. This matters for the length tests of `src/lib/security.ts:110,146-148`.
- The sanitizer folds case for ASCII letters only, which is enough for its patterns.
- Line terminators for the `.` of the repetition patterns are the four JavaScript ones.
- `groupQuestionsByPage` writes the filtered options into each shared question object (`q.options = …`). The model returns new question values instead, so aliasing with the caller's array is not captured.
- Roles are assumed to be among the four names. A stored role outside them makes `roleHierarchy[profile.role]` undefined at `src/components/auth/ProtectedRoute.tsx:74`, so every rank check would pass, while `hasPermission` would deny it (`src/lib/auth.ts:41`). The closed `Role` type cannot show that fail-open.
- Sorting: `Sorting.SortBy` is an insertion sort. It states sortedness and permutation, not stability. Stability does not matter for the option ids, which are distinct row ids, or for the page groups, whose page numbers are distinct keys.
- `GET /api/v1/scores` and the summary route are outside the core.
- The `config.matcher` of `src/middleware.ts:80-84` is not modelled. It keeps `/api…`, `_next/static`, `_next/image` and `favicon.ico` away from the gate; `Middleware.Decide` treats those paths like any other and passes them with the four headers.
- CompleteRoute.CompletionFields: requires `now` to be non-empty, as every ISO timestamp is.

## Findings

| source | as written | input that shows it | evidently intended | confidence | as-written member | corrected member |
|---|---|---|---|---|---|---|
| src/lib/security.ts:179-186 | each pattern is removed in a single left-to-right pass, so a removal can join the text around it into a new match | `dadata:ta:` becomes `data:` | the output contains none of the patterns the comments say are removed (`javascript:`, `on…=` handlers, `data:`) | medium, not executed | `Sanitizer.SinglePassLeavesDataScheme` | `Sanitizer.SanitizeFully` |
