# Session and profile rules of the student-collaboration client

This project models, in Dafny, the rules of a single-page client for a
student-collaboration directory. Students sign up, sign in, register a skills
profile, browse the profiles of others and delete their own. The client talks
to a remote API and keeps one bearer token in browser storage. Its rules are
deterministic functions of that token, of form fields and of what the server
replied, and those rules are what the model covers:

- the session accessor (`src/utils/auth.js`): whether someone is signed in,
  the route the "register" links take, logout, the token-length check, and the
  registration check that fetches the profile and evaluates
  `data.name && data.skills && data.collegeName && data.isRegistered`;
- the directory search (`src/pages/findskills.jsx`): an order-preserving,
  case-insensitive substring filter over the user list, the load that fills
  the list, and how many portfolio links a card shows;
- the registration form (`src/pages/Register.jsx`): the skill-link list,
  edited in place, and the three-stage validation that builds the payload.
  The two URL regular expressions are written as recognisers and proved equal
  to the language each pattern denotes;
- the sign-up form (`src/pages/Signup.jsx`): the required-fields guard and
  what the reply does to the page;
- the home page (`src/pages/Home.jsx`): the "Add skills" decision;
- the profile page (`src/pages/Profile.jsx`): the two-tier load (full profile,
  then basic record), the choice of view, and the delete outcome.

Files: `wrappers.dfy` (Option, Result), `js.dfy` (truthiness, `&&`, the
`message || fallback` idiom, `trim`, ASCII `toLowerCase`, `includes`),
`seqs.dfy` (`filter`, subsequences, removal at an index), `api.dfy` (user
record, registration form, requests, replies, routes), `url_patterns.dfy`,
`auth.dfy`, `findskills.dfy`, `register.dfy`, `signup.dfy`, `home.dfy` and
`profile.dfy`.

How the outside world enters the model:

- Each server reply is a parameter of type `Reply<T>`. It is either `Ok(body)`,
  or `NotOk(message)` with the optional `message` field of the error body, or
  `Threw`. `Threw` means the request itself failed, or the handler called
  `res.json()` on that reply and decoding failed. A reply whose body the
  handler never reads is `Ok` or `NotOk`, whatever the body holds: a non-ok
  full-profile reply (`src/pages/Profile.jsx:30-37`) is `NotOk(None)` even when
  its body is not JSON, and an ok reply to the delete request
  (`src/pages/Profile.jsx:73-81`) is `Ok` whatever its body.
- Every operation that may talk to the server returns the list of requests it
  issued. "No request is made" is then stated as `requests == []`.
- Browser storage is `Auth.Session`, an object with one `token: Option<string>`
  field. Read-only handlers receive the token value they read at that moment.
- The pages' React state is held in classes (`RegisterPage`, `SignupPage`,
  `HomePage`, `ProfilePage`). Each handler is a method that updates those
  fields. On the directory page the state is a value (`FindSkills.Directory`)
  produced by functions, because that code only computes and assigns.

Behaviour of the code worth stating up front:

- A stored empty string counts as signed out, because the code tests `!!token`.
- The GitHub pattern admits one handle segment and an optional slash, so a
  repository URL is refused, although the error message mentions repository
  URLs.
- The registration check resolves to the value of the `&&` chain, which is one
  of the four fields (`Js.Value`), not necessarily a boolean.
- Each page catches its own exceptions, and the model follows those `catch`
  blocks.
- `token.length` counts UTF-16 code units, so the token-length check counts a
  character outside the Basic Multilingual Plane twice (`Js.Utf16Length`).

## Model

| member | source | states |
|---|---|---|
| Auth.Session.constructor | src/utils/auth.js:4 | the store holds whatever token was last kept, or none |
| Auth.Session.Logout | src/utils/auth.js:14-16 | afterwards no token is stored, so the visitor is not signed in, the token is not valid and the register route is the sign-up page; logging out with no token changes nothing |
| Auth.Session.SignIn | src/pages/Signin.jsx:38 | a successful sign-in stores the issued token; the visitor counts as signed in exactly when that token is non-empty |
| Auth.GetRegisterRoute | src/utils/auth.js:3-11 | the route is `/find-skills` exactly when a non-empty token is stored, and `/sign-up` otherwise |
| Auth.IsLoggedIn | src/utils/auth.js:3-6 | signed in exactly when the stored token is truthy in JavaScript, so an empty string counts as signed out |
| Auth.IsTokenValid | src/utils/auth.js:19-26 | false without a token; otherwise true exactly when `token.length`, in UTF-16 code units, exceeds 10; so more than 10 characters always pass and at most 5 never do; a valid token implies signed in |
| Auth.CompletedProfile | src/utils/auth.js:55-58 | the `&&` chain is truthy exactly when name, skills and college are non-empty and `isRegistered` is true, and its value is one of those four fields |
| Auth.CheckUserRegistration | src/utils/auth.js:29-63 | without a token: `false` and no request; otherwise exactly one profile request; a non-ok reply or an exception gives `false`; the result is truthy exactly when signed in, the reply is ok and the profile is complete; on an ok reply it is the value of the `&&` chain over the received profile |
| Js.And | src/utils/auth.js:55 | `a && b` is `a` when `a` is falsy and `b` otherwise, and is truthy exactly when both are |
| Js.OrElse | src/pages/Signup.jsx:37 | `message || fallback` is the server message when it is non-empty and the fallback otherwise, so it is never empty |
| Js.Utf16Length | src/utils/auth.js:25 | `length` counts each character once, or twice when it lies outside the Basic Multilingual Plane, so it is between the number of characters and twice that, and equals it for text without such characters |
| Js.Trim | src/pages/Register.jsx:71 | the trimmed string is no longer than the input and neither starts nor ends with white space |
| Js.IsBlank | src/pages/Register.jsx:71 | `trim() === ''` holds exactly when every character is white space, the empty string included |
| Js.TrimSpec | src/pages/Register.jsx:71 | `trim()` returns the slice between the first and last non-space characters, and is empty exactly when the string is all white space |
| Js.Lower | src/pages/findskills.jsx:54-56 | lower-casing keeps the length and maps each ASCII capital to its small letter, leaving other characters alone |
| Js.TrimUnchanged | src/pages/Register.jsx:71 | `trim()` leaves a string alone when it neither starts nor ends with white space |
| Js.LowerAppend | src/pages/findskills.jsx:54-56 | lower-casing a concatenation lower-cases each part |
| Js.LowerUnchanged | src/pages/findskills.jsx:54-56 | a string without ASCII capitals is its own lower-cased form |
| Js.Includes | src/pages/findskills.jsx:54-56 | `includes` is true exactly when the needle occurs at some position of the string |
| Seqs.Filter | src/pages/findskills.jsx:53-57 | every kept element satisfies the predicate and comes from the input; the result is no longer than the input |
| Seqs.FilterIsSubsequence | src/pages/findskills.jsx:53-58 | filtering keeps the relative order of the kept elements |
| Seqs.FilterCount | src/pages/findskills.jsx:53-57 | each element satisfying the predicate is kept as often as it occurs, and every other element is dropped |
| Seqs.FilterAll | src/pages/findskills.jsx:53-57 | when every element satisfies the predicate, the filter returns its input unchanged |
| Seqs.FilterEmpty | src/pages/Register.jsx:78-81 | the filter is empty exactly when no element satisfies the predicate |
| Seqs.RemoveAt | src/pages/Register.jsx:53 | filtering out index `i` drops that one entry and shifts the rest down; an index out of range changes nothing |
| UrlPatterns.MatchesLoweredSound | src/pages/Register.jsx:67-68 | every string the one-pass recogniser accepts has the shape scheme, optional `www.`, site, handle, optional slash |
| UrlPatterns.MatchesLoweredComplete | src/pages/Register.jsx:67-68 | every string of that shape is accepted by the recogniser |
| UrlPatterns.MatchesSiteUrlSpec | src/pages/Register.jsx:67-68 | the case-insensitive recogniser accepts exactly the strings whose lower-cased form is in the pattern's language |
| UrlPatterns.IsLinkedInUrl | src/pages/Register.jsx:67 | an accepted string starts with `https://` in some letter case and is longer than `https://linkedin.com/in/` |
| UrlPatterns.IsGitHubUrl | src/pages/Register.jsx:68 | an accepted string starts with `https://` in some letter case and is longer than `https://github.com/` |
| UrlPatterns.IsLinkedInUrlSpec | src/pages/Register.jsx:67 | the LinkedIn test accepts exactly `https://` + optional `www.` + `linkedin.com/in/` + a handle + optional `/`, ignoring ASCII case |
| UrlPatterns.IsGitHubUrlSpec | src/pages/Register.jsx:68 | the GitHub test accepts exactly `https://` + optional `www.` + `github.com/` + a handle + optional `/`, ignoring ASCII case |
| UrlPatterns.GitHubProfileAccepted | src/pages/Register.jsx:68 | `https://github.com/me` passes the GitHub test |
| UrlPatterns.ForeignHostRejected | src/pages/Register.jsx:68 | any string whose lower-cased form is `https://` followed by text starting with neither `w` nor `g` fails the GitHub test: the host must be `github.com` or `www.github.com` |
| UrlPatterns.ExampleHostRejected | src/pages/Register.jsx:68 | `https://example.com/me` fails the GitHub test |
| UrlPatterns.RepositoryUrlRejected | src/pages/Register.jsx:68 | every URL of the form `https://` + optional `www.` + `github.com/` + owner + `/` + non-empty repository, in any letter case, fails the GitHub test, despite the message about repository URLs |
| FindSkills.FieldMatches | src/pages/findskills.jsx:54-56 | a field matches exactly when it is present and its lower-cased text contains the lower-cased query at some position; so a missing field never matches, a match is at least as long as the query, and the empty query matches every present field |
| FindSkills.UserMatches | src/pages/findskills.jsx:53-57 | a user with none of name, skills and college never matches; the empty query matches exactly the users with at least one of them |
| FindSkills.Search | src/pages/findskills.jsx:49-60 | a query that is blank after trimming returns the users unchanged; any other query keeps only matching users from the list |
| FindSkills.SearchIsSubsequence | src/pages/findskills.jsx:49-60 | the search result is always a subsequence of the user list, in the original order |
| FindSkills.SearchKeepsExactlyMatches | src/pages/findskills.jsx:53-57 | for a non-blank query each user whose lower-cased name, skills or college contains the lower-cased query is kept as often as it occurs, and every other user is dropped |
| FindSkills.SearchAllMatch | src/pages/findskills.jsx:49-58 | a query that every user matches leaves the list unchanged |
| FindSkills.QueryIsNotTrimmedForMatching | src/pages/findskills.jsx:50-56 | `react` finds a user whose skills are `React`, but ` react` does not: trimming is only for the blank test |
| FindSkills.SameWordMatches | src/pages/findskills.jsx:53-56 | a query equal to a user's skills up to ASCII case finds that user |
| FindSkills.LongerQueryMisses | src/pages/findskills.jsx:53-56 | a query longer than a user's only present field never finds that user |
| FindSkills.LoadUsers | src/pages/findskills.jsx:12-46 | without a token: the sign-in message and no request; otherwise one request; the error is unset exactly on an ok reply, and then `users` and `filteredUsers` are both the list received; loading ends on every path; a non-ok reply sets the server message or "Failed to fetch users", an exception the server-error message |
| FindSkills.ApplySearch | src/pages/findskills.jsx:49-60 | the search effect changes only `filteredUsers`, which becomes the search of `users` for the query, and so is always a subsequence of `users` |
| FindSkills.LoadedCountIsEveryUser | src/pages/findskills.jsx:35-36 | after a successful load and the initial empty query, `filteredUsers` equals `users`, so the count shown is the number of users received |
| FindSkills.EmptyListMessage | src/pages/findskills.jsx:116-119 | the empty-list message speaks of "your search" exactly when the raw query is non-empty |
| FindSkills.EmptyListAfterSearch | src/pages/findskills.jsx:49-60 | an empty result for a blank query means no user was loaded, and a query of spaces still gets the "your search" message |
| FindSkills.CardLinks | src/pages/findskills.jsx:163-182 | the link section is hidden exactly when there are no links; otherwise it shows the first two links, or all of them when there are fewer; the "more links" line appears exactly when there are more than two and counts the total less two |
| Register.LinkedInOk | src/pages/Register.jsx:71 | a LinkedIn field of white space only passes; any other passes exactly when its trim passes the LinkedIn test |
| Register.SkillLinkOk | src/pages/Register.jsx:79 | a skill link of white space only passes; any other passes exactly when its trim passes the GitHub test |
| Register.LinkedInOkLanguage | src/pages/Register.jsx:67-71 | the LinkedIn field passes exactly when it is all white space or its trim is in the LinkedIn pattern's language |
| Register.SkillLinkOkLanguage | src/pages/Register.jsx:68-79 | a skill link passes exactly when it is all white space or its trim is in the GitHub pattern's language |
| Register.Validate | src/pages/Register.jsx:61-106 | a failure carries one of the three messages; on success the payload is the form with only `skillLinks` replaced, by a non-empty subsequence of the form's links |
| Register.ValidateFailures | src/pages/Register.jsx:70-93 | the checks run in order: a bad LinkedIn URL gives the LinkedIn message; then any bad non-blank skill link gives the skill-link message; then all links being blank gives the mandatory-link message |
| Register.ValidateAccepts | src/pages/Register.jsx:70-93 | a form is accepted exactly when LinkedIn passes, every skill link passes and some link is non-blank; every payload link is then non-blank and, trimmed, a GitHub profile URL |
| Register.AcceptanceCondition | src/pages/Register.jsx:70-93 | a form is accepted exactly when LinkedIn passes, every skill link passes and some link is non-blank |
| Register.PayloadLinksPass | src/pages/Register.jsx:77-106 | every link of an accepted payload is non-blank and, trimmed, a GitHub profile URL |
| Register.NonBlankLinksPass | src/pages/Register.jsx:77-88 | when every link passes its check, each non-blank one is, trimmed, a GitHub profile URL |
| Register.PayloadKeepsNonBlankLinks | src/pages/Register.jsx:88-106 | the payload carries every non-blank link exactly as often as the form does, untrimmed, and no blank one |
| Register.ValidatePayload | src/pages/Register.jsx:88-106 | on success the payload's links are the form's non-blank links, in order and untrimmed |
| Register.SingleGoodLinkAccepted | src/pages/Register.jsx:70-106 | a form with a passing LinkedIn field and a single non-blank, passing link is posted exactly as it stands |
| Register.SingleBadLinkRejected | src/pages/Register.jsx:70-85 | a form with a passing LinkedIn field and a single failing link is refused with the skill-link message |
| Register.EmptyFormRejected | src/pages/Register.jsx:5-11 | the untouched form, with its one blank link, is refused with "At least one skill link is mandatory" |
| Register.GitHubProfileLinkAccepted | src/pages/Register.jsx:78-106 | a form whose only link is `https://github.com/me` is accepted and sends that link as typed |
| Register.ForeignLinkRejected | src/pages/Register.jsx:77-85 | a form whose only link is `https://example.com/me` is refused with the skill-link message |
| Register.RegisterPage.constructor | src/pages/Register.jsx:5-14 | the form starts with empty text fields and exactly one blank skill link, no error, not loading, checking authentication |
| Register.RegisterPage.CheckAuth | src/pages/Register.jsx:18-26 | without a token the page navigates to `/sign-in`; with one it stops checking authentication |
| Register.RegisterPage.HandleChange | src/pages/Register.jsx:28-33 | sets the named input, keeps the other inputs, the skill links and the page flags |
| Register.RegisterPage.HandleSkillLinkChange | src/pages/Register.jsx:35-42 | replaces only entry `index`; the length, the other entries and the other fields stay the same |
| Register.RegisterPage.AddSkillLink | src/pages/Register.jsx:44-49 | appends exactly one blank entry at the end and changes nothing else |
| Register.RegisterPage.RemoveSkillLink | src/pages/Register.jsx:51-59 | removes entry `index` only when there is more than one entry, so at least one entry always remains |
| Register.RegisterPage.HandleSubmit | src/pages/Register.jsx:61-123 | a failed check sets its message and sends nothing; otherwise the validated payload is posted once; an ok reply navigates to `/profile`, a non-ok one sets the server message or "Registration failed", an exception the server-error message; loading ends on every path |
| Signup.HandleChange | src/pages/Signup.jsx:10-15 | sets the key named by the input's id and keeps every other key |
| Signup.Missing | src/pages/Signup.jsx:19 | a key is missing exactly when `formData[key]` is falsy in JavaScript: absent or the empty string |
| Signup.HasAllDetails | src/pages/Signup.jsx:19 | the guard passes exactly when username, email and password are all present and non-empty |
| Signup.WhitespaceDetailsPass | src/pages/Signup.jsx:19 | the guard itself does not trim, so values made of spaces pass it, and a missing password fails it; on the page the browser strips the email input first (see Left out) |
| Signup.FilledFormPasses | src/pages/Signup.jsx:10-22 | filling username, email and password with non-empty values satisfies the guard |
| Signup.SignupPage.constructor | src/pages/Signup.jsx:6-7 | the form starts empty with no error |
| Signup.SignupPage.Change | src/pages/Signup.jsx:10-15 | an input change updates the form as `HandleChange` says and keeps the error |
| Signup.SignupPage.HandleSubmit | src/pages/Signup.jsx:17-45 | a missing or empty username, email or password sets "All details are required" and sends nothing; otherwise the old error is cleared and the form is posted once; ok navigates to `/sign-in`, non-ok sets the server message or "Signup failed", an exception the server-error message |
| Home.AddSkillsDecision | src/pages/Home.jsx:21-40 | with no token the visitor goes to `/sign-up` whatever `isRegistered` holds; signed in, the notice is shown exactly when `isRegistered` is truthy, and otherwise the visitor goes to `/register` |
| Home.DecisionAfterCheck | src/pages/Home.jsx:11-40 | once the check has settled, a signed-in visitor sees the notice exactly when the profile fetch was ok and complete, and goes to `/register` otherwise |
| Home.DecisionBeforeCheck | src/pages/Home.jsx:6-7 | before the check settles `isRegistered` is still false, so a signed-in visitor is sent to `/register` |
| Home.HeroLinkTarget | src/pages/Home.jsx:53-54 | the hero link goes wherever `getRegisterRoute` sends the visitor |
| Home.HomePage.constructor | src/pages/Home.jsx:6-8 | `isRegistered` starts false, `loading` true and the notice hidden |
| Home.HomePage.CheckRegistration | src/pages/Home.jsx:11-19 | `isRegistered` becomes the registration check's value and loading ends |
| Home.HomePage.HandleAddSkillsClick | src/pages/Home.jsx:21-40 | shows the notice without navigating, or navigates where `AddSkillsDecision` says; `isRegistered` and `loading` are unchanged |
| Profile.FetchUserData | src/pages/Profile.jsx:14-57 | without a token: "No authentication token found" and no request; an ok full profile is used and the basic record is never requested; otherwise the basic record is tried; each path ends with exactly one of the record and a non-empty error set |
| Profile.ViewOf | src/pages/Profile.jsx:90-148 | the loading view exactly while loading; otherwise the error view, carrying the message, exactly when there is no record and a non-empty error; the full view exactly when the record is flagged registered, the incomplete view for any other record, and a broken render only without record and error |
| Profile.ProfilePage.Rendered | src/pages/Profile.jsx:90-148 | on the page's own fields: the loading view exactly while loading, the error view exactly without a record and with a non-empty error, the full view exactly for a record flagged registered, and a broken render only without record and error |
| Profile.ViewAfterFetch | src/pages/Profile.jsx:90-148 | after the load the page never renders from a missing record; it shows the error view exactly when the load failed, and the full view exactly when the record is flagged registered |
| Profile.DeleteErrorIsNotRendered | src/pages/Profile.jsx:73-77 | an error set while a record is loaded does not change what is rendered |
| Profile.ProfilePage.constructor | src/pages/Profile.jsx:6-10 | no record, loading, no error, modal closed, not deleting |
| Profile.ProfilePage.LoadUserData | src/pages/Profile.jsx:13-60 | the mount effect leaves the record, the error and the requests as `FetchUserData` describes; loading ends, and the rendered view is never the broken one |
| Profile.ProfilePage.OpenDeleteModal | src/pages/Profile.jsx:219 | opens the confirmation and changes nothing else |
| Profile.ProfilePage.CloseDeleteModal | src/pages/Profile.jsx:237 | closes the confirmation and changes nothing else |
| Profile.ProfilePage.HandleDeleteProfile | src/pages/Profile.jsx:62-88 | sends one DELETE with the stored token; only an ok reply clears the token and navigates to `/`; a non-ok reply or an exception sets the error and keeps the token; afterwards `deleting` is false and the modal closed |

## Left out

- HTTP `fetch`, JSON encoding and decoding, and the configured base address.
  The fixed `http://localhost:3000` addresses in `src/pages/Profile.jsx` are
  deployment details. Each reply is an abstract `Reply` parameter.
- Browser storage itself and coordination between tabs. Storage is one
  `Option<string>` field.
- Rendering, styling, routing (`src/App.jsx`), the static `src/pages/About.jsx`
  and the header component (`src/components/Header.jsx`). The header only
  calls `isLoggedIn`/`logout` and toggles a menu.
- The sign-in page (`src/pages/Signin.jsx`) apart from storing the token
  (`Auth.Session.SignIn`). If the reply lacks a token, the browser would store
  the string `"undefined"`; the model's `SignIn` takes the issued string as given.
- The 3-second timer in `src/pages/Home.jsx` that hides the notice again,
  because it is timing. Updates that arrive after a page has unmounted and the
  `console.log` diagnostics are left out too.
- Unicode case mapping and a general regular-expression engine. Lower-casing is
  ASCII only. The two patterns are fixed recognisers, and matching ignores
  ASCII case, which is exact for these patterns without the `u` flag.
- JSON values other than strings, booleans and absent fields. `null` and
  `undefined` are one value. A non-string `name` (which would make
  `toLowerCase` throw) and an ok reply whose body is `null` are not modelled.
- The HTML `required` attributes on the name, college and skills inputs
  (`src/pages/Register.jsx:152`, `168` and `183`) and the `type="url"`
  attributes on the LinkedIn and skill-link inputs (`src/pages/Register.jsx:196`
  and `213`). The browser enforces them before
  `handleSubmit` runs: it refuses to submit while a URL input holds a
  non-empty value that is not an absolute URL, and it strips leading and
  trailing ASCII white space from those values. The model gives
  `handleSubmit` the field values as typed. The same holds for the sign-up
  email input (`type="email"`, `src/pages/Signup.jsx:64`): the browser refuses
  to submit a non-empty value that is not an email address and strips white
  space from it, so an email of spaces reaches the guard as `""` there.
- Strings are sequences of Unicode scalar values. A JavaScript string holding
  an unpaired surrogate has no counterpart in the model.
- Register.RegisterPage.HandleSkillLinkChange: requires `index` to lie inside
  the list. Callers take the index from the rendered list. Writing past the end,
  which would leave holes in a JavaScript array, is not modelled.
- Profile.ProfilePage.LoadUserData: requires the page as constructed, because
  the effect has no dependencies and runs once on mount.
- Home.DecisionAfterCheck: assumes the token read at the click is the one read
  when the page loaded. A token changed in between, for example by another tab,
  is not covered.
