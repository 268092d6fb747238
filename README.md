# Campus recruitment client — a verified Dafny model

This project models the browser client of a campus-recruitment platform (a React single
page application) on which students look for jobs and apply with a CV, companies post
jobs and take decisions on applications, and administrators manage their account. The
model covers:

- the authentication store (token and user cells, with the token mirrored into
  `localStorage`);
- the route guard;
- the two HTTP clients with their bearer-token and 401 hooks;
- the sign-in / sign-up and registration pages;
- the student job board (search, query string and two-phase application with CV upload);
- the student home page;
- the student profile;
- the company dashboard with its application detail view;
- the company and admin profile pages.

Each page whose state the source updates in place is a `class`: its fields are the
page's state cells and its methods are the event handlers. The outside world is one
`Browser.Window` object: `localStorage` as a map, plus a trace of every effect in order:

- requests sent, with their headers;
- storage writes;
- navigations and history entries;
- opened tabs, alerts and clicked download links.

Every handler states its new state and the exact suffix it appends to that trace.

What the model takes as parameters instead of performing it:

- **The network** is an oracle. A handler receives, as `Reply` parameters, the answers
  its requests would get: `Ok(data)`, or `Err` with either no response or a status and
  message.
- **Library code** is parameters of the window:
  - the `URLSearchParams` name/value encoder and its decoder;
  - `encodeURIComponent`.

  The query-string round trips hold for any encoder that its decoder undoes and that
  never emits `&` or `=` (`Browser.QueryCodec`).
- **`window.prompt`** and file inputs are parameters: the note typed into the prompt, and
  the chosen file as its name and size.
- **React plumbing**:
  - An `async` handler runs as one atomic step.
  - The value a "loading" or "saving" flag has while the request is out is returned as a
    ghost out-parameter.
  - An effect that React runs after a setter is modelled as part of that setter:
    - the token-to-storage sync of the store;
    - the form resync of the profile pages when the user changes.

Behaviours the model follows from the code where a reader might expect otherwise:

- **Guard.** A resolved user with an empty `roles` list is sent home, because any array
  is truthy. While the user is still null the guarded page renders, whatever the roles.
- **HTTP clients.** Every page modelled here uses `lib/api.js`, which has no response
  hook; the company applications page and the admin service, which are not part of this
  model, use `lib/axios.js`. Only
  `lib/axios.js` removes the token and goes to `/login` on a 401. Nothing in the core
  resolves the user from a stored token.
- **Student stats.** The skills stat counts characters (UTF-16 units) when the server
  sends the skills as one string.

## Model

| member | source | states |
|---|---|---|
| Net.MessageOr | src/pages/Auth.jsx:46 | the server's `data.message` when the failure carries a non-empty one, else the handler's fallback; a transport error always gives the fallback |
| Browser.Window.SetItem | src/context/AuthContext.jsx:10 | `localStorage.setItem` updates one key and records the write |
| Browser.Window.RemoveItem | src/context/AuthContext.jsx:10 | `localStorage.removeItem` deletes one key and records the removal |
| Session.Synced | src/context/AuthContext.jsx:9-11 | after the sync effect storage mirrors the token (a truthy token stored under `token`, otherwise no entry) and every other key is unchanged |
| Session.SyncEffect | src/context/AuthContext.jsx:10 | the effect writes exactly when the token is truthy, under the key `token` with the token's value, and removes that key otherwise |
| Session.ReloadAfterSync | src/context/AuthContext.jsx:7-11 | a store re-created over synced storage reads back the truthy token, and no token for a falsy one |
| Session.LoadMirrored | src/context/AuthContext.jsx:7-10 | when storage mirrors the token cell, reading storage gives the truthy token back and None otherwise |
| Session.SyncedIdempotent | src/context/AuthContext.jsx:9-11 | running the sync effect on storage that already mirrors the token changes nothing |
| Session.AuthStore.constructor | src/context/AuthContext.jsx:6-11 | the token cell starts from storage and the user as null; the mount effect runs once and leaves storage coherent |
| Session.AuthStore.Sync | src/context/AuthContext.jsx:9-11 | the effect body writes or removes the token and re-establishes the coherence invariant |
| Session.AuthStore.SetToken | src/context/AuthContext.jsx:7-11 | `setToken` sets the cell, keeps the user, runs the sync only when the value changes, and keeps storage coherent |
| Session.AuthStore.SetUser | src/context/AuthContext.jsx:6 | `setUser` changes only the user cell |
| Session.AuthStore.Logout | src/context/AuthContext.jsx:13 | `logout` nulls both cells, removes the stored token and keeps storage coherent |
| Guard.Decide | src/components/ProtectedRoute.jsx:4-9 | login redirect iff no truthy token; home redirect iff token, roles given, user resolved and role not listed; render otherwise |
| Guard.LoginFirst | src/components/ProtectedRoute.jsx:6 | without a token (null or empty) the login redirect wins whatever the user and roles |
| Guard.UnresolvedUserRenders | src/components/ProtectedRoute.jsx:7-8 | with a token and a still-null user the page renders even under a role list |
| Guard.EmptyRolesRedirect | src/components/ProtectedRoute.jsx:7 | an empty role list sends every resolved user home |
| Guard.GuardAfterLogout | src/components/ProtectedRoute.jsx:6 | after a logout the reloaded store makes every guarded route redirect to login |
| Gateway.BaseUrl | src/lib/axios.js:5 | `lib/axios.js` uses the environment URL when it is set and non-empty, and the localhost default otherwise; `lib/api.js` uses the variable as it is |
| Gateway.WithBearer | src/lib/api.js:17-21 | a truthy stored token adds `Authorization: Bearer <token>` and every other header is kept; a falsy one leaves the headers as they were |
| Gateway.AttachBearer | src/lib/axios.js:14-25 | the request hook returns the same config with its headers passed through the bearer rule |
| Gateway.OnResponse | src/lib/axios.js:28-40 | the reply reaches the caller unchanged; only a 401 through `lib/axios.js` removes the stored token and navigates to `/login`, and otherwise the browser is untouched |
| Gateway.Call | src/lib/axios.js:4-40 | one request: the defaults plus the per-request headers with the bearer header are sent, then the response hook's effects follow; storage loses the token exactly on an axios 401 |
| Gateway.ApiCall | src/lib/api.js:15-21 | a request through `lib/api.js` appends one send, leaves storage as it was, and hands the reply back untouched |
| Gateway.ClientEffects | src/lib/api.js:15-23 | through `lib/api.js` every reply, a 401 included, leaves only its one send with the caller's headers; through `lib/axios.js` a 401 adds the token removal and the jump to `/login`, and any other reply leaves the send alone |
| Gateway.UnauthorizedLogsOut | src/lib/axios.js:32-35 | after the 401 hook the reloaded store has no token and the guard redirects every route to login |
| UrlParams.Get | src/pages/student/Jobs.jsx:163 | `get` is None iff no pair has the key, else the value of the first pair with that key |
| UrlParams.GetOr | src/pages/student/Jobs.jsx:163-165 | `get(k) \|\| ''` is the found value or the empty string |
| UrlParams.Set | src/pages/student/Jobs.jsx:44-46 | after `set(k, v)` the key reads `v`, every other key reads as before, and an absent key is appended at the end |
| UrlParams.Serialize | src/pages/student/Jobs.jsx:48 | `toString` is empty exactly for no pairs |
| UrlParams.Parse | src/pages/student/Jobs.jsx:162 | an empty query or a lone `?` parses to no pairs |
| UrlParams.ParseSerialize | src/pages/student/Jobs.jsx:43-48 | parsing `?` plus the serialised params gives back the same pairs, in order |
| AuthPage.Toggled | src/pages/Auth.jsx:61 | the switch button always changes the mode |
| AuthPage.ToggleTwice | src/pages/Auth.jsx:61 | two clicks of the switch restore the mode |
| AuthPage.LandingPath | src/pages/Auth.jsx:36-37 | `/company` iff role COMPANY, `/admin` iff ADMIN, `/student` for every other role, a missing role included |
| AuthPage.RoleOf | src/pages/Auth.jsx:36 | the role is the signed-in user's; a login reply without a user has no role and lands on `/student` |
| AuthPage.RegistrationBody | src/pages/Auth.jsx:40 | name, email, password and role are sent as typed; the company name is present iff the role is COMPANY, and falls back to the name when empty |
| AuthPage.CompanyNamePresent | src/pages/Auth.jsx:40 | a company with either name typed sends a non-empty company name |
| AuthPage.AuthForm.constructor | src/pages/Auth.jsx:8-20 | the form starts empty in the given mode with role STUDENT, not loading and with no error |
| AuthPage.AuthForm.ToggleMode | src/pages/Auth.jsx:61 | the mode becomes the toggled mode |
| AuthPage.AuthForm.HandleSubmit | src/pages/Auth.jsx:28-50 | login sends the credentials; on success it sets token and user, storage becomes the synced token over the old entries, and it navigates by role. Registration sends the body and goes to `/login` without signing in or touching storage. A failure shows the message or fallback and changes neither the session nor storage. Loading is on while the request is out and off afterwards |
| RegisterPage.RegisterForm.constructor | src/pages/Register.jsx:6-13 | the form starts empty with role STUDENT |
| RegisterPage.RegisterForm.OnSubmit | src/pages/Register.jsx:15-28 | sends the registration body; on success it sets token and user, syncs storage and navigates to `/`, storage becoming the synced token over the old entries; a failure shows the message or "Registration failed" and keeps the session and all of storage |
| JobsPage.SearchQuery | src/pages/student/Jobs.jsx:37 | the `q` sent is trimmed, and empty when both fields are empty |
| JobsPage.SearchQueryJoins | src/pages/student/Jobs.jsx:37 | trimmed non-empty title and position are sent one space apart, unchanged |
| JobsPage.SearchQueryOneSided | src/pages/student/Jobs.jsx:37 | with one field empty the other (trimmed) field is sent alone |
| JobsPage.SearchParams | src/pages/student/Jobs.jsx:43-46 | the params are `title`, `position`, `location` in that order, each present only when non-empty |
| JobsPage.SearchParamsEmpty | src/pages/student/Jobs.jsx:43-46 | there are no params exactly when all three fields are empty |
| JobsPage.SearchParamsGet | src/pages/student/Jobs.jsx:43-46 | each key reads its field when non-empty and is absent otherwise |
| JobsPage.SearchParamsRoundTrip | src/pages/student/Jobs.jsx:43-165 | the three fields read back from the written query string (missing keys as "") equal the searched fields |
| JobsPage.SearchUrl | src/pages/student/Jobs.jsx:48 | the pushed address starts with the current path and `?`, and is the bare `path?` exactly when no filter is set |
| JobsPage.SearchUrlSeedsFields | src/pages/student/Jobs.jsx:48-169 | the pushed address, from its `?` on, reads back the three searched fields on the next visit |
| JobsPage.SizeLimitBoundary | src/pages/student/Jobs.jsx:80-81 | a file of exactly 10 MiB is accepted and one byte more is refused |
| JobsPage.AcceptsFile | src/pages/student/Jobs.jsx:80-81 | a CV is accepted exactly when it is at most 10 MiB (10485760 bytes) |
| JobsPage.UploadRejectionAsWritten | src/pages/student/Jobs.jsx:125-152 | as written, an upload refused with `success: false` always alerts the generic submit failure |
| JobsPage.UploadRejection | src/pages/student/Jobs.jsx:126 | the intended alert: the server's upload message, or "Failed to upload resume" when it is empty |
| JobsPage.UploadMessageLost | src/pages/student/Jobs.jsx:125-152 | for any non-empty server message other than the generic text, the as-written alert differs from the message and the intended one shows it |
| JobsPage.JobsView.constructor | src/pages/student/Jobs.jsx:7-21 | the board starts with no jobs, empty fields, no selection, an empty form and nothing in progress |
| JobsPage.JobsView.LoadJobs | src/pages/student/Jobs.jsx:25-54 | sets the three fields and sends the trimmed query with the location. On success it replaces the list and, when asked, pushes the path with its query string; a failure keeps the list and rejects. Storage is untouched. Loading is on during the request and off after |
| JobsPage.PushSearchUrl | src/pages/student/Jobs.jsx:42-50 | the address-bar update appends exactly one history push: the current path, `?` and the serialised search params |
| JobsPage.JobsView.Search | src/pages/student/Jobs.jsx:216 | the search button runs the load on the current fields and writes the address bar on success; storage is untouched |
| JobsPage.JobsView.Mount | src/pages/student/Jobs.jsx:158 | the first load on a fresh board sends no filter and, on success, pushes the bare `path?`; storage is untouched and a failure keeps the list |
| JobsPage.JobsView.OnLocationSearch | src/pages/student/Jobs.jsx:160-170 | an empty query string does nothing; otherwise the fields come from `title`, `position` and `location` (missing as "") and a search with the URL update runs, leaving storage untouched |
| JobsPage.Prefill | src/pages/student/Jobs.jsx:59-64 | the opened form carries the user's name, email and phone (all empty when nobody is signed in) and no CV |
| JobsPage.JobsView.HandleApplyClick | src/pages/student/Jobs.jsx:56-66 | selects the job, prefills the form with the user's contact details and no CV, and opens the modal |
| JobsPage.JobsView.HandleFileChange | src/pages/student/Jobs.jsx:76-91 | no file changes nothing; an oversized file alerts and keeps the form; otherwise the file becomes the CV and nothing else changes |
| JobsPage.JobsView.HandleSubmitApplication | src/pages/student/Jobs.jsx:93-156 | refuses (exactly) with no job, with a missing name or email (alert), or with no CV (alert), changing nothing. Otherwise it uploads the CV as multipart. A failed upload alerts its message and sends nothing more; a successful one applies with the returned URL. Submitted iff both succeed, which resets the form and closes the modal; failures keep the form |
| JobsPage.JobsView.ApplyUploaded | src/pages/student/Jobs.jsx:131-152 | after a successful upload: one application request with the form's contact fields and the uploaded URL, then the success alert or the server's message (or the generic failure); only success resets the form, the selection and the modal, and storage is untouched |
| JobsPage.JobsView.SendApplication | src/pages/student/Jobs.jsx:108-155 | after the form checks the upload goes out first, with submitting on. A failed upload alerts the server's message or the generic failure. A refused upload sends nothing more and alerts the corrected upload message, not the code's generic text. A successful upload is followed by the application with the uploaded URL and an alert of its result. Only a successful application clears the form, the selection and the modal. Submitting is off afterwards |
| StudentDashboard.JobsLink | src/pages/student/Dashboard.jsx:60-66 | the link is the job-board path alone when all fields are empty, otherwise the path, `?` and the search params |
| StudentDashboard.LinkSeedsJobBoard | src/pages/student/Dashboard.jsx:60-66 | the job board reading the link's query string gets back the three typed values, and the query string is empty iff all are empty |
| StudentDashboard.CarouselStep | src/pages/student/Dashboard.jsx:68-74 | the next index stays in range, advances by one, and wraps to 0 after the last image |
| StudentDashboard.CarouselAfter | src/pages/student/Dashboard.jsx:70-72 | the index after any number of steps stays in range |
| StudentDashboard.CarouselCycles | src/pages/student/Dashboard.jsx:70-72 | k steps from i reach `(i + k) % len` |
| StudentDashboard.CarouselFullRound | src/pages/student/Dashboard.jsx:70-72 | after as many steps as images the carousel is back where it started |
| StudentDashboard.ToggleFaq | src/pages/student/Dashboard.jsx:279 | clicking the open question closes the accordion; any other click opens exactly that question |
| StudentDashboard.FaqClicks | src/pages/student/Dashboard.jsx:279 | two clicks on one question close it again; a click on another question moves the open item there |
| CompanyDashboard.PatchBody | src/pages/company/Dashboard.jsx:40-44 | a status name is sent as `{status}` without a message; an object is sent as it is |
| CompanyDashboard.ListBadge | src/pages/company/Dashboard.jsx:96-100 | yellow iff PENDING, green iff ACCEPTED, red for every other status |
| CompanyDashboard.CompanyBoard.constructor | src/pages/company/Dashboard.jsx:7-12 | empty form, no jobs, no applications, nothing selected |
| CompanyDashboard.CompanyBoard.LoadJobs | src/pages/company/Dashboard.jsx:25-28 | sends the job list request; success replaces the jobs, failure keeps them and rejects |
| CompanyDashboard.CompanyBoard.LoadApplications | src/pages/company/Dashboard.jsx:30-35 | sends the application list request; success replaces the list, failure is swallowed and keeps it |
| CompanyDashboard.CompanyBoard.PostJob | src/pages/company/Dashboard.jsx:14-23 | sends the form. A failure alerts and keeps the form and lists. Success clears the form and reloads jobs then applications; a failed job reload still shows the posting alert |
| CompanyDashboard.CompanyBoard.SetStatus | src/pages/company/Dashboard.jsx:37-52 | patches the application; the result is true iff the patch succeeded, and the reload of the applications is sent only then |
| CompanyDashboard.CompanyBoard.Mount | src/pages/company/Dashboard.jsx:54 | loads the jobs and the applications, in that order |
| CompanyDashboard.CompanyBoard.Select | src/pages/company/Dashboard.jsx:84 | a click on an entry selects that application |
| CompanyDashboard.CompanyBoard.Close | src/pages/company/Dashboard.jsx:129 | closing the detail view clears the selection |
| ApplicationDetails.Actions | src/pages/company/ApplicationDetails.jsx:340-372 | actions are offered iff the status is PENDING, and then all three: reject, interview and accept |
| ApplicationDetails.ActionPatches | src/pages/company/ApplicationDetails.jsx:340-372 | each action patches its own target status, never PENDING, with distinct targets for distinct actions; only the interview carries a message, the prompt's answer or "" when cancelled |
| ApplicationDetails.DetailsBadge | src/pages/company/ApplicationDetails.jsx:21-33 | yellow, green and red exactly for PENDING, ACCEPTED and REJECTED, grey for any other status |
| ApplicationDetails.BadgesAgree | src/pages/company/ApplicationDetails.jsx:21-29 | the detail badge and the list badge agree exactly when the detail badge is not grey; INTERVIEW is red in the list and grey in the detail view |
| ApplicationDetails.FixLocalhostAsWritten | src/pages/company/ApplicationDetails.jsx:47-50 | as written: a URL with the bogus localhost prefix becomes a string starting with `https` no longer than the URL minus the host; any other URL is kept |
| ApplicationDetails.FixLocalhost | src/pages/company/ApplicationDetails.jsx:46-50 | the intended repair: with the bogus prefix the result is exactly the URL minus `http://localhost:3001` and starts with `https`; any other URL is kept |
| ApplicationDetails.AsWrittenAgrees | src/pages/company/ApplicationDetails.jsx:47-50 | the as-written repair keeps only the text up to the next `https`; it equals the intended repair iff the rest of the URL contains no second `https` |
| ApplicationDetails.AsWrittenTruncates | src/pages/company/ApplicationDetails.jsx:47-50 | on `http://localhost:3001https://x.io/https.pdf` the as-written repair yields `https://x.io/`, which is no longer a PDF, while the intended one yields the whole URL |
| ApplicationDetails.ViewTarget | src/pages/company/ApplicationDetails.jsx:52-75 | a Cloudinary PDF opens with its query replaced by `fl_attachment=false`; another PDF opens through the Google viewer with the encoded URL; anything else opens as it is |
| ApplicationDetails.ViewEffect | src/pages/company/ApplicationDetails.jsx:35-81 | the view button alerts iff the URL is empty, else opens a tab on the view target of the trimmed, repaired URL |
| ApplicationDetails.ImageOpensDirectly | src/pages/company/ApplicationDetails.jsx:140-145 | an image resume is never a PDF, so it opens unchanged |
| ApplicationDetails.IsImageFile | src/pages/company/ApplicationDetails.jsx:140-145 | an image resume (a non-empty URL ending, in any case, in `.jpg`, `.jpeg`, `.png` or `.gif`) is never taken for a PDF |
| ApplicationDetails.DownloadTarget | src/pages/company/ApplicationDetails.jsx:95-101 | a Cloudinary URL loses its query and gains `?fl_attachment=true`; any other URL is kept |
| ApplicationDetails.FileName | src/pages/company/ApplicationDetails.jsx:109-115 | the suggested name is non-empty, has a dot, and contains no `/` and no `?` |
| ApplicationDetails.FileNameIgnoresQuery | src/pages/company/ApplicationDetails.jsx:110 | a query after the last path segment does not change the file name |
| ApplicationDetails.SegmentName | src/pages/company/ApplicationDetails.jsx:110-115 | a segment with a dot is the name as it is, one without gains `.pdf`, and an empty one gives `resume.pdf` |
| ApplicationDetails.FileNameOfSegment | src/pages/company/ApplicationDetails.jsx:110-115 | the file name of `path/segment` is the segment's name, whatever the path holds |
| ApplicationDetails.FileNameOfSegmentQuery | src/pages/company/ApplicationDetails.jsx:110-115 | the file name of `path/segment?query` is the segment's name: the query is dropped |
| ApplicationDetails.CloudinaryFileName | src/pages/company/ApplicationDetails.jsx:95-115 | the attachment flag added for Cloudinary never reaches the file name, which is that of the URL without its query |
| ApplicationDetails.DownloadAttr | src/pages/company/ApplicationDetails.jsx:117-120 | the `download` attribute is set iff the target is a blob or data URL, and is then the file name |
| ApplicationDetails.DownloadEffect | src/pages/company/ApplicationDetails.jsx:82-130 | an empty URL does nothing; otherwise a link to the download target of the trimmed, repaired URL is clicked |
| ApplicationDetails.PrepareDownload | src/pages/company/ApplicationDetails.jsx:88-120 | the link built step by step has the download target of the trimmed, repaired URL as its address, and the `download` attribute exactly for blob and data URLs |
| ApplicationDetails.DetailsView.constructor | src/pages/company/ApplicationDetails.jsx:4-8 | the view starts neither loading nor downloading |
| ApplicationDetails.DetailsView.HandleStatusChange | src/pages/company/ApplicationDetails.jsx:10-19 | runs the dashboard's status change and closes the view; loading is on during the change and off afterwards |
| ApplicationDetails.DetailsView.OnAction | src/pages/company/ApplicationDetails.jsx:340-372 | an offered action, clicked while not loading, patches the action's status body and closes the view; loading is on during the change and off after, and the application list is replaced exactly when both the patch and the reload succeed |
| ApplicationDetails.DetailsView.HandleViewResume | src/pages/company/ApplicationDetails.jsx:35-81 | appends exactly the view effect of the URL and leaves storage alone |
| ApplicationDetails.DetailsView.HandleDownloadResume | src/pages/company/ApplicationDetails.jsx:82-138 | an empty URL does nothing; otherwise it appends the download effect, with downloading on during it and off afterwards |
| AccountForms.FirstChar | src/pages/company/Profile.jsx:13 | the first character of a word, and nothing for an empty word |
| AccountForms.FirstChars | src/pages/company/Profile.jsx:13 | one first character per word, in order |
| AccountForms.Initials | src/pages/company/Profile.jsx:13 | the avatar text has at most two characters |
| AccountForms.InitialsOneWord | src/pages/company/Profile.jsx:13 | a one-word name gives its upper-cased first letter |
| AccountForms.InitialsOfLetter | src/pages/company/Profile.jsx:13 | an empty name with a one-letter fallback shows that letter upper-cased |
| AccountForms.InitialsTwoWords | src/pages/company/Profile.jsx:13 | for a name with a space, the initials are those of the first word and of the text up to the next space |
| AccountForms.InitialsDoubleSpace | src/pages/company/Profile.jsx:13 | a double space after the first word leaves a single initial |
| AccountForms.InitialsFallback | src/pages/company/Profile.jsx:13 | an empty name shows the fallback's initials |
| AccountForms.FormOf | src/pages/company/Profile.jsx:9 | the form holds the user's name and email, or two empty strings without a user |
| AccountForms.CompanyPasswordError | src/pages/company/Profile.jsx:19-23 | the company check refuses iff a new password is typed and differs from the confirmation, with the mismatch message |
| AccountForms.AdminPasswordError | src/pages/admin/Profile.jsx:51-52 | "required" iff the new password is empty, "do not match" iff it is non-empty and differs from the confirmation, accepted otherwise |
| AccountForms.AdminStricter | src/pages/admin/Profile.jsx:49-53 | the admin check refuses everything the company check refuses, with the same message; it refuses more exactly for an empty new password |
| AccountForms.CompanyPayload | src/pages/company/Profile.jsx:25-29 | the company body always has the name and never the email, and has the password pair iff a new password is typed |
| AccountForms.PasswordPayload | src/pages/admin/Profile.jsx:55 | the password body has the current and new password and nothing else |
| AccountForms.CompanyPayloadExtends | src/pages/company/Profile.jsx:25-29 | with a new password, the company body is the password body plus the name |
| CompanyProfile.CompanyProfilePage.constructor | src/pages/company/Profile.jsx:6-11 | not editing, not saving, no error, empty passwords, form from the user |
| CompanyProfile.CompanyProfilePage.Avatar | src/pages/company/Profile.jsx:13 | the header avatar has at most two characters, and is "C" when the user has no name |
| CompanyProfile.CompanyProfilePage.StartEdit | src/pages/company/Profile.jsx:69 | enters edit mode |
| CompanyProfile.CompanyProfilePage.Cancel | src/pages/company/Profile.jsx:72 | leaves edit mode and restores the form from the user |
| CompanyProfile.CompanyProfilePage.UserChanged | src/pages/company/Profile.jsx:42-44 | the form is resynced from the user |
| CompanyProfile.CompanyProfilePage.OnSave | src/pages/company/Profile.jsx:15-40 | a password mismatch shows the error and sends nothing. Otherwise the company body goes out. Success stores the returned user, leaves edit mode and clears the passwords; failure shows the message or fallback and keeps everything. Saving is off at the end, storage is kept, and outside edit mode the form still shows the user |
| AdminProfile.AdminProfilePage.constructor | src/pages/admin/Profile.jsx:8-19 | all three cards idle with no error; the name and email forms come from the user and the passwords are empty |
| AdminProfile.AdminProfilePage.Avatar | src/pages/admin/Profile.jsx:26 | the header avatar has at most two characters, and is "A" when the user has no name |
| AdminProfile.AdminProfilePage.UserChanged | src/pages/admin/Profile.jsx:21-24 | the name and email forms are resynced from the user |
| AdminProfile.AdminProfilePage.StartEdit | src/pages/admin/Profile.jsx:86 | enters edit mode of the name card |
| AdminProfile.AdminProfilePage.Cancel | src/pages/admin/Profile.jsx:89 | leaves edit mode and restores the name form |
| AdminProfile.AdminProfilePage.SaveName | src/pages/admin/Profile.jsx:28-37 | sends only the name; success stores the user, resyncs both forms and leaves edit mode; failure shows the message or "Failed to update name" and keeps everything |
| AdminProfile.AdminProfilePage.SaveEmail | src/pages/admin/Profile.jsx:39-47 | sends only the email; success stores the user and resyncs the forms; failure shows the message or "Failed to update email" |
| AdminProfile.AdminProfilePage.SavePassword | src/pages/admin/Profile.jsx:49-60 | a refused password shows the check's message and sends nothing; else only the password pair goes out; success clears the fields, failure shows the message or "Failed to update password" |
| StudentProfile.SkillsText | src/pages/student/Profile.jsx:80 | a skills string is shown as it is; a list whose first item is non-empty gives non-empty text |
| StudentProfile.SkillsCount | src/pages/student/Profile.jsx:96 | the skills stat is the list's length; for text it is between the character count and twice that, and equals the character count exactly when every character lies in the Basic Multilingual Plane |
| StudentProfile.Loaded | src/pages/student/Profile.jsx:73-88 | after a fetch the name and email fall back to the user's, the skills become text, every other text field and both URLs are the server's, and password fields and chosen files are kept |
| StudentProfile.FailedLoad | src/pages/student/Profile.jsx:110-114 | a failed fetch sets only the name and email, from the user |
| StudentProfile.StatsOf | src/pages/student/Profile.jsx:91-106 | the counters are the server's or 0 without stats, and the skills stat is the skills count |
| StudentProfile.ProfileParts | src/pages/student/Profile.jsx:151-168 | the multipart body is the ten text fields in order, each carrying the form field of its key, then the image and resume when chosen, and never the email |
| StudentProfile.LoadThenSave | src/pages/student/Profile.jsx:73-168 | saving right after a fetch sends back all ten fetched text fields, the name with its fallback and the skills as their joined text, plus the files chosen before |
| StudentProfile.SkillChips | src/pages/student/Profile.jsx:595-601 | no chips iff the text is empty, and every chip is trimmed |
| StudentProfile.SkillsRoundTrip | src/pages/student/Profile.jsx:596-601 | a skills list of trimmed non-empty items without commas, joined with ", " as at line 80, is shown as exactly those chips |
| StudentProfile.StudentCheckVsCompany | src/pages/student/Profile.jsx:144 | the student check refuses everything the company check refuses, and more exactly when the new password is empty but the confirmation is not |
| StudentProfile.StudentProfilePage.constructor | src/pages/student/Profile.jsx:33-61 | not editing, on the profile tab, empty form, loading, zero stats |
| StudentProfile.StudentProfilePage.SetTab | src/pages/student/Profile.jsx:290-300 | the tab buttons select the tab |
| StudentProfile.StudentProfilePage.SetEditing | src/pages/student/Profile.jsx:248-258 | the edit and cancel buttons set edit mode |
| StudentProfile.StudentProfilePage.FetchProfile | src/pages/student/Profile.jsx:64-121 | fetches the profile; success loads form and stats, failure falls back to the user's name and email; loading is on during the fetch and off afterwards |
| StudentProfile.StudentProfilePage.SelectResume | src/pages/student/Profile.jsx:503-515 | no file does nothing; an oversized file alerts and keeps the form; otherwise it becomes the resume |
| StudentProfile.StudentProfilePage.HandleSubmit | src/pages/student/Profile.jsx:141-194 | sends nothing exactly on the password tab with a mismatch. Otherwise the profile tab sends the multipart body and the password tab only the password pair. Success leaves edit mode and clears the password fields only on the password tab; a failure changes nothing |

## Left out

- Real I/O and concurrency: requests, timers and the event loop. A handler is one atomic step over the replies it is given. `Promise.all` in the company dashboard is modelled with the job reload before the application reload. The carousel's `setInterval` is modelled only as its step.
- The 100 ms `setTimeout` that removes the temporary download link and calls `revokeObjectURL`: it has no effect the trace records.
- The `try`/`catch` alerts in the view and download handlers: nothing the model does there can throw.
- `withCredentials`, `console` logging and every piece of rendering and styling (other than badge colours, the avatar text and the skill chips).
- Text handling:
  - Case mapping is ASCII only.
  - The avatar takes whole characters rather than UTF-16 code units, so a name that starts with a character outside the Basic Multilingual Plane is not modelled as JavaScript would split it.
- The generic field handlers (`handleChange`, `handleInputChange`, the `onChange` setters): each replaces one field with the typed value.
- The profile image: no input of the page ever sets `profileImage`, so the model only carries the field. The detail view's `previewUrl` and `isPreviewing` are never set, and are left out.
- The file names displayed in the dashboard list (company `Dashboard.jsx` line 117) and in the detail view (line 231): display only.
- `typeof status === 'object' && status !== null`: the status argument is either a name or an object, so the null case does not arise.
- Absent fields in server payloads: an absent text field is modelled as "" and an absent counter as 0. Every reader applies `|| ''` or `|| 0`, which treats the two alike.
- Disabled buttons: a disabled button is modelled only as a precondition of the action handler (`OnAction` requires the view not to be loading). Double submissions are not modelled.
- `Login.jsx`, `App.jsx`, the admin overview, `adminService.js`, the company applications page, the navigation bars, the layouts, the footer and the FAQ page are not part of this model.
- Effect timing: React runs the storage sync and the profile resync after rendering. The model runs them at the setter, so a trace shows them immediately after the state change.
- ApplicationDetails.ViewEffect, ApplicationDetails.DownloadEffect: these complete the source's URL rewriting through the corrected `FixLocalhost`, not the `split`-based code as written (see Findings).
- JobsPage.JobsView.HandleSubmitApplication: a refused upload alerts the corrected `UploadRejection` message rather than the as-written generic text (see Findings).
- JobsPage.JobsView.SendApplication: a refused upload alerts the corrected `UploadRejection` message, where the code as written alerts "Failed to submit application. Please try again." (see Findings).
- ApplicationDetails.PrepareDownload: repairs the localhost prefix with the corrected `FixLocalhost`, not the code's `'https' + split('https')[1]` (see Findings).
- ApplicationDetails.DetailsView.HandleViewResume: repairs the localhost prefix with the corrected `FixLocalhost`, not the code's `split`-based rebuild (see Findings).
- ApplicationDetails.DetailsView.HandleDownloadResume: builds its link through `PrepareDownload`, so it too uses the corrected `FixLocalhost` (see Findings).

## Findings

| source | as written | input that shows it | evidently intended | confidence | as-written member | corrected member |
|---|---|---|---|---|---|---|
| src/pages/student/Jobs.jsx:125-152 | an upload answered with `success: false` throws `new Error(message)`, but the catch block reads only `error.response.data.message`, so the generic "Failed to submit application. Please try again." is shown | upload reply `{ success: false, message: "Only PDF files are allowed" }` | the alert shows the server's upload message, or "Failed to upload resume" | not executed | JobsPage.UploadRejectionAsWritten (shown by JobsPage.UploadMessageLost) | JobsPage.UploadRejection |
| src/pages/company/ApplicationDetails.jsx:47-50 | the localhost repair rebuilds the URL as `'https' + url.split('https')[1]`, which stops at the next `https` in the URL | `http://localhost:3001https://x.io/https.pdf` becomes `https://x.io/`, no longer a PDF | strip the `http://localhost:3001` prefix and keep the rest of the URL | not executed | ApplicationDetails.FixLocalhostAsWritten (shown by ApplicationDetails.AsWrittenTruncates and ApplicationDetails.AsWrittenAgrees) | ApplicationDetails.FixLocalhost |
