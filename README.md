# Job portal front end and store, in Dafny

This project models the logic of a small job portal. The portal is a
single-page JavaScript front end over a Flask back end. The model covers:

- the page router `navigateTo`, including its loading placeholder, provider
  and binder selection, profile guard and not-found fallback;
- the shared client state in `utils.js`: the session, the header list and
  the message modal;
- the login / sign-up page;
- the job listing, including duplicate-application suppression and the
  apply buttons;
- the profile page, including its rendering defaults and the edit
  controller (Viewing and Editing);
- the back end's handlers, with its two JSON files treated as two maps:
  `users` (email to password) and `profiles` (email to profile);
- the places where the older single-file front end (`main/main.js`) behaves
  differently.

Every network outcome is an input of type
`Response<T> = Ok(body) | Err(message) | ConnFail`. `Ok` is a 2xx reply,
`Err` a reply with another status and a `message`, and `ConnFail` a fetch
that threw. With network outcomes as inputs, every handler is a
deterministic state transition. Each message passed to `showMessage` is
appended to the ghost history `Session.Shell.notices`. A handler that
navigates elsewhere returns the target page id (`next`) or a `reload` flag
rather than calling the router itself. The back end's `secure_filename` is
the function parameter `secure`.

Modules:

- `Wrappers`: `Option` and `Response`.
- `Text`: JavaScript `trim`.
- `Pages`: page ids.
- `Session`: `utils.js`.
- `Store`: `app.py`.
- `Jobs`: `applyJobs.js`.
- `Profile`: `profile.js`.
- `Auth`: `auth.js`.
- `Navigation`: `navigation.js`.
- `Legacy`: the differences in `main.js`.

Code that updates state in place is modelled as classes with frames. These
are `Session.Shell`, `Store.Backend`, `Jobs.ApplyButton`,
`Auth.AuthPage`, `Navigation.AppView` and `Profile.ProfileEditor`. The
editor keeps the five form fields in an array and walks them with loops,
as the source's `forEach` does. Each of its methods is proved equal to a
pure transition on `Profile.EditorState`, and the round-trip and invariant
lemmas are proved about those transitions.

Notes on the code's behaviour:

- The Verify button and the save guard test the *trimmed* URL, not the raw
  field.
- The snapshot `initialFieldValues` survives a save and a cancel. Only the
  next Edit overwrites it.
- The legacy `showMessage` and `navigateTo` throw when the modal or `#app`
  is missing. The model turns this into preconditions of the `Legacy`
  members.
- The binder's own status fetch recomputes the Verify button even in
  Viewing mode, so that button can be visible on a read-only form. The
  invariant `Profile.VerifyButtonAgrees` is stated to allow this.

## Model

| member | source | states |
|---|---|---|
| Text.Trim | main/pages/profile.js:153 | the trimmed string is empty exactly when the input is all ECMAScript white space; otherwise it starts and ends with a non-space character; never longer than the input (that it is a slice of the input is Text.TrimIsInfix) |
| Text.TrimIsInfix | main/pages/profile.js:153 | the trimmed string is a slice of the input with only white space before it and only white space after it; with Trim's non-space ends, it is the input with its white-space ends cut off |
| Text.TrimIdempotent | main/pages/profile.js:153 | trimming twice equals trimming once |
| Session.HeaderItems | main/utils.js:72-83 | exactly three items: Home, Apply for Jobs, then Profile when a session exists and Login/Sign Up otherwise (each present iff the session condition holds); every link targets a known page |
| Session.LoggedIn | main/utils.js:79 | the session counts as logged in exactly when `currentUser` is neither null nor the empty string (JavaScript truthiness) |
| Session.Shell.constructor | main/utils.js:9 | no session, modal hidden and empty, empty header, no messages yet |
| Session.Shell.SetCurrentUser | main/utils.js:15-17 | the session becomes exactly the given value, nothing else changes |
| Session.Shell.ShowMessage | main/utils.js:23-32 | with both modal elements present the modal shows the message and is visible; without them nothing visible changes; the message history grows by the message; whenever the modal can show text it holds the last message |
| Session.Shell.CloseModal | main/utils.js:37-42 | hides the modal when it exists, text untouched; otherwise no change |
| Session.Shell.UpdateHeaderNavigation | main/utils.js:65-84 | the header becomes HeaderItems of the current session whatever it held before (so a second call changes nothing); a missing nav list is left alone |
| Session.Shell.Logout | main/utils.js:48-50 | session cleared and "You have been logged out." added to the history; shown in a visible modal when both modal elements exist, otherwise the modal keeps its text and visibility |
| Store.LowerAll | main/app.py:22 | each ASCII capital A-Z lower-cased and every other character kept, position by position; length kept |
| Store.LastDot | main/app.py:22 | the position of the last '.' (no '.' after it), or none when the name has no '.' |
| Store.AllowedFile | main/app.py:20-22 | accepted exactly when the name ends in '.' followed by three characters that lower-case to "pdf" |
| Store.NewProfile | main/app.py:119-129 | the profile sign-up creates: the email, the about text "New user, excited to explore opportunities!", an empty application list, empty text fields, "No file uploaded" and not verified |
| Store.AddApplication | main/app.py:180-183 | one {job, "Pending"} application appended at the end of the (possibly absent) list; earlier applications and every other field unchanged |
| Store.ApplyUpdate | main/app.py:205-212 | email and applications untouched; each of the seven fields takes the request's value when the key is present, else the stored value, else its default ("", "No file uploaded", false) |
| Store.UpdateIdempotent | main/app.py:205-212 | applying the same update twice stores the same profile as once |
| Store.UploadResume | main/app.py:236-265 | 200 iff a resume part with a non-empty pdf name and an email are present and saving works, 400 iff one of those inputs is missing or wrong, 500 iff only saving fails; on 200 the stored name is email + "_" + secure(name) |
| Store.Backend.constructor | main/app.py:12-13 | the store holds the two given maps |
| Store.Backend.Signup | main/app.py:98-133 | 400 iff email or password is missing, 409 iff the email exists, else 201; 201 adds exactly that user and the default profile; 400 and 409 change neither map |
| Store.Backend.Login | main/app.py:136-150 | 200 iff the email is a user whose stored password equals the given one, replying with that email; otherwise 401; nothing changes |
| Store.Backend.ApplyJob | main/app.py:165-187 | 400 iff email or job title is missing, 404 iff there is no profile, else 200 with the profile's applications extended by one pending entry; errors change nothing |
| Store.Backend.UpdateProfile | main/app.py:190-216 | 400 iff the email is missing, 404 iff there is no profile, else 200 storing ApplyUpdate of the profile; errors change nothing |
| Jobs.AppliedTo | main/pages/applyJobs.js:43 | true iff some application's job equals the title exactly |
| Jobs.ButtonFor | main/pages/applyJobs.js:42-46 | the button carries "<title> at <company>"; disabled iff an application matches it; text "Application Pending" iff disabled and "Apply Now" iff enabled |
| Jobs.Listing | main/pages/applyJobs.js:41-65 | one button per job, in the server's order |
| Jobs.UserApplications | main/pages/applyJobs.js:12-24 | with a session and an ok profile fetch, the fetched profile's applications, or none when it has no list; no session or a failed profile fetch gives no applications |
| Jobs.ApplyJobsPage | main/pages/applyJobs.js:11-65 | an ok jobs fetch renders one button per job with no message; a failed one renders nothing and shows the matching message; without a session or profile every button is enabled; a button is disabled iff the user's applications contain its title; an ok jobs fetch renders exactly Listing of the user's applications over the jobs |
| Jobs.ApplyThenRenderDisables | main/pages/applyJobs.js:42-46 | after the back end records an application for a job, rendering that job from the updated profile gives a disabled "Application Pending" button |
| Jobs.ApplyButton.constructor | main/pages/applyJobs.js:62 | the button starts with the rendered title, text and disabled flag |
| Jobs.ApplyButton.Click | main/pages/applyJobs.js:93-126 | a disabled button changes nothing, neither itself nor the session, header or modal, and sends nothing; without a session a prompt and a redirect to login-signup, no request; otherwise one request with the session email and the button's title, and only an ok reply makes the button pending and disabled; the modal is never closed and becomes visible once a message is shown with both modal elements present, otherwise keeps its visibility |
| Profile.StatusStyleOf | main/pages/profile.js:35 | Pending is yellow, Reviewed green, anything else red |
| Profile.RowsOf | main/pages/profile.js:35 | one row per application with its job, status and colour |
| Profile.ViewOf | main/pages/profile.js:34-100 | missing text fields show "", the resume "No file uploaded" (also for an empty name), verified only when stored true, a missing about the text "undefined"; the no-applications placeholder iff the list is absent or empty, otherwise exactly RowsOf the applications; badge iff a URL, resume link iff a file |
| Profile.ProfilePage | main/pages/profile.js:12-32 | no session gives the login prompt; an ok fetch the form of ViewOf; an error reply the error paragraph and "Error fetching profile: " + message; a connection failure the failure paragraph and its message |
| Profile.Initial | main/pages/profile.js:138-148 | the binder starts in Viewing over the rendered form: the five field values and the resume name as rendered, an empty snapshot, unverified, nothing staged and the Verify button hidden |
| Profile.EnterEdit | main/pages/profile.js:163-191 | Edit snapshots all five fields, the resume display and the flag, drops the staged file, enters Editing, and shows Verify iff the trimmed URL is non-empty and unverified |
| Profile.RestoreFields | main/pages/profile.js:228-232 | each field with a snapshot entry gets it back; the others keep their value |
| Profile.CancelEdit | main/pages/profile.js:227-240 | every snapshotted field, the resume display and the flag come back from the snapshot; nothing staged; Viewing with Verify hidden; the snapshot itself kept |
| Profile.TypeInto | main/pages/profile.js:261-267 | a read-only form ignores typing; typing into the URL clears the flag even for an unchanged value and shows Verify iff the trimmed new URL is non-empty; other fields leave flag and button alone |
| Profile.ChooseFile | main/pages/profile.js:249-259 | a picked file is staged and its name shown; an empty pick unstages and shows "No file uploaded"; nothing else changes |
| Profile.VerifyUrl | main/pages/profile.js:269-281 | a non-empty trimmed URL becomes verified and Verify hides, with the confirmation message; an empty one changes nothing and prompts |
| Profile.StatusFetched | main/pages/profile.js:205-219 | with a session and an ok reply carrying the flag, the flag is taken from the server and Verify recomputed; anything else changes nothing |
| Profile.SaveAllowed | main/pages/profile.js:286-290 | a save is refused exactly when the Verify button's rule holds: the trimmed URL is non-empty and not verified |
| Profile.Payload | main/pages/profile.js:321-330 | the update carries the session email, all seven fields, the four text fields as typed, the URL trimmed, the given resume name and the current flag |
| Profile.Commit | main/pages/profile.js:332-352 | exactly one update request; only an ok reply leaves Editing, hides Verify, shows the server's message and reloads; an error or a connection failure shows one message and keeps the state |
| Profile.SaveProfile | main/pages/profile.js:284-354 | refused with no request while the trimmed URL is non-empty and unverified; with a staged file the upload goes first and a failed upload sends nothing more; the update carries the server's file name or the displayed one; only an ok update leaves Editing and reloads; every failure keeps the state, staged file included |
| Profile.SaveThenReloadShowsEdits | main/pages/profile.js:321-345 | after the back end applies the save's update, the reloaded form shows the typed fields, the trimmed URL, the sent resume name and the sent flag |
| Profile.InterimKeepsSnapshot | main/pages/profile.js:184-188 | events between Edit and Cancel never touch the snapshot and keep the form in Editing |
| Profile.EditCancelRoundTrip | main/pages/profile.js:184-239 | Edit, any interim events, then Cancel restore every field, the resume display and the flag to their values before Edit, with nothing staged, Viewing and Verify hidden |
| Profile.CancelRestores | main/pages/profile.js:227-238 | Cancel over the snapshot Edit took restores the pre-edit fields, resume display and flag |
| Profile.StepKeepsVerifyButton | main/pages/profile.js:151-161 | every event keeps the Verify button consistent: never shown for an empty or verified URL, and while editing shown exactly when the URL is non-empty and unverified |
| Profile.RunKeepsVerifyButton | main/pages/profile.js:151-161 | the same over any run of events |
| Profile.ProfileEditor.constructor | main/pages/profile.js:138-148 | the binder's closure over a rendered form equals Initial of that form |
| Profile.ProfileEditor.UpdateVerifyButton | main/pages/profile.js:151-161 | Verify is shown iff the trimmed URL is non-empty and unverified |
| Profile.ProfileEditor.Edit | main/pages/profile.js:163-191 | the new state is EnterEdit of the old |
| Profile.ProfileEditor.Cancel | main/pages/profile.js:226-241 | the new state is CancelEdit of the old |
| Profile.ProfileEditor.Type | main/pages/profile.js:261-267 | the new state is TypeInto of the old |
| Profile.ProfileEditor.ChooseResume | main/pages/profile.js:249-259 | the new state is ChooseFile of the old |
| Profile.ProfileEditor.Verify | main/pages/profile.js:269-281 | the new state and the messages are those of VerifyUrl; the session is untouched; header untouched; the modal is never closed and becomes visible once a message is shown with both modal elements present, otherwise keeps its visibility |
| Profile.ProfileEditor.StatusArrived | main/pages/profile.js:205-219 | the new state is StatusFetched of the old under the current session |
| Profile.ProfileEditor.SendUpdate | main/pages/profile.js:320-352 | sends the update built from the form and handles its outcome as the save's second step; header untouched; the modal is never closed and becomes visible once a message is shown with both modal elements present, otherwise keeps its visibility |
| Profile.ProfileEditor.UploadThenUpdate | main/pages/profile.js:294-318 | uploads the staged file with the session email; a failed upload keeps the state and sends nothing more; an ok one shows the server's message and continues with its file name; header untouched; the modal is never closed and becomes visible once a message is shown with both modal elements present, otherwise keeps its visibility |
| Profile.ProfileEditor.Save | main/pages/profile.js:284-354 | the new state, the requests sent, the messages and the reload flag are those of SaveProfile; header untouched; the modal is never closed and becomes visible once a message is shown with both modal elements present, otherwise keeps its visibility |
| Auth.AuthPage.constructor | main/pages/auth.js:19-36 | login form shown, sign-up form hidden, inputs empty |
| Auth.AuthPage.ShowSignUpForm | main/pages/auth.js:69-74 | exactly the sign-up form is shown, whatever was shown before (so it is idempotent) |
| Auth.AuthPage.ShowLoginForm | main/pages/auth.js:77-82 | exactly the login form is shown, whatever was shown before |
| Auth.AuthPage.FillLogin | main/pages/auth.js:24-28 | the login inputs hold what was typed |
| Auth.AuthPage.FillSignup | main/pages/auth.js:41-49 | the sign-up inputs hold what was typed |
| Auth.AuthPage.SubmitLogin | main/pages/auth.js:103-129 | sends the typed credentials; an ok reply sets the session to the returned email, shows the success message, rebuilds the header and schedules the profile page; a failure shows "Login failed: " + message or the connection message and leaves session and header alone; the modal is never closed and becomes visible once a message is shown with both modal elements present, otherwise keeps its visibility |
| Auth.AuthPage.SubmitSignup | main/pages/auth.js:135-166 | a password differing from its confirmation shows the mismatch message and sends nothing; otherwise sends the typed credentials; ok shows message + " You can now log in.", clears the form and switches to login; a failure shows its message and changes nothing; the session is never touched; the modal is never closed and becomes visible once a message is shown with both modal elements present, otherwise keeps its visibility |
| Navigation.Route | main/navigation.js:14-62 | the visit starts by clearing `#app` |
| Navigation.RouteFacts | main/navigation.js:26-61 | placeholder iff profile with a session or apply-jobs, labelled "profile" or "job listings"; a known page ends with exactly one binder call, last, right after the content it belongs to; profile without a session shows "Please log in to view your profile." and becomes exactly a login visit; an unknown id installs only "Page not found." and no binder; profile and job pages install their provider's result |
| Navigation.RouteLandsOnPage | main/navigation.js:58-61 | a known page leaves `#app` holding the content of the page it lands on |
| Navigation.LoadingOps | main/navigation.js:25-28 | at most one write, the loading placeholder, present exactly for a profile visit with a session and for the job listing |
| Navigation.Dispatch | main/navigation.js:30-56 | a known page that passes the guard installs its provider's content and then runs its own binder, two effects in all; the profile page without a session shows the login prompt first; an unknown id installs only the not-found paragraph and shows nothing |
| Navigation.ShowRendered | main/pages/applyJobs.js:34-38 | the message a provider showed while fetching is added to the history; the modal is never closed and becomes visible when a message is shown with both modal elements present, otherwise keeps its visibility |
| Navigation.AppView.constructor | main/navigation.js:15 | an empty container with no history |
| Navigation.AppView.Install | main/navigation.js:20 | the container holds the new content, recorded in the history |
| Navigation.AppView.RunBinder | main/navigation.js:58-61 | one binder call recorded |
| Navigation.AppView.ClearAndShowLoading | main/navigation.js:20-28 | the container is cleared and the placeholder follows when the page calls for it |
| Navigation.AppView.RunSwitch | main/navigation.js:30-61 | the `switch` and the final install and bind, including the guard's re-entrant navigation; the modal is never closed and becomes visible once a message is shown with both modal elements present, otherwise keeps its visibility |
| Navigation.AppView.RedirectToLogin | main/navigation.js:44-49 | the profile page without a session: the login prompt, then exactly the login visit, with the modal rule above |
| Navigation.AppView.ShowFetched | main/navigation.js:35-53 | the job listing, or the profile with a session: the provider's message, then its content and its binder, exactly as Dispatch, with the modal rule above |
| Navigation.AppView.InstallAndBind | main/navigation.js:58-61 | `#app` holds the page content, and the binder, if any, runs after it |
| Navigation.AppView.NavigateTo | main/navigation.js:14-62 | without `#app` nothing changes, neither `#app`, its history, the session, the header nor the modal; otherwise the effects and messages are exactly Route's; session and header untouched; the modal is never closed; the modal is never closed and becomes visible once a message is shown with both modal elements present, otherwise keeps its visibility |
| Legacy.NavigateTo | main/main.js:766-810 | the same effects as the modular router, for callers that guarantee `#app` and, when the visit shows a message, the modal; the modal is never closed and becomes visible once a message is shown with both modal elements present, otherwise keeps its visibility |
| Legacy.Logout | main/main.js:19-24 | session cleared, logout message shown in the visible modal, header rebuilt for nobody, and the home page installed and bound |

## Left out

- HTTP, `fetch`, Flask routing, CORS and `send_from_directory` are not modelled. Replies are inputs.
- `get_profile` and `get_jobs` are not modelled as handlers. Their replies are the `profileFetch` and `jobsFetch` inputs.
- JSON file I/O (`read_json_file`, `write_json_file`, `init_json_files`) is not modelled. The files are the two maps of `Store.Backend`.
- `secure_filename` is the parameter `secure`, because it belongs to a foreign library.
- Markup is not modelled, for the same reason as CSS classes, focus styles and the Edit/Save/Cancel/Upload button visibility: only derived values count. `readOnly` on the fields is the `editing` flag.
- The job fields other than `job_title` and `company` are left out; they only go into markup.
- `main/pages/home.js` is not part of this model: it is static markup with an empty binder.
- The Upload button's handler is left out. It only opens the file picker; the pick itself is `ChooseFile`.
- Asynchronous interleaving is not modelled, including stale replies after navigating away. Each handler runs start to finish on the inputs it is given.
- The binder's own status fetch is a separate event, `StatusFetched` / `StatusArrived`.
- The 1500 ms `setTimeout` after login is the returned `next` page.
- Redirects from handlers are returned values. The apply button and login return `next`; the profile save returns `reload`. The caller passes them to the router.
- JSON `null` and values of the wrong type are not modelled; a key is present or absent. One consequence: Cancel with no snapshotted flag yields `false`, which stands for the falsy `undefined`.
- Store.LowerAll, Store.AllowedFile: lower-case ASCII letters only. Python's `str.lower` also maps other characters, but none of them to the letters p, d or f.
- Passwords are stored and compared in plain text, as in the source. Console logging is left out.
- The modular `logout` is `Session.Shell.Logout`. The global `window.logout` that the profile page's Logout button calls is not defined in the modular files, so that wiring is not modelled.
- HTML escaping is not modelled. The model assumes the page reads back exactly the text it rendered; this affects Profile.Initial, Jobs.ApplyButton.constructor and Profile.SaveThenReloadShowsEdits. The source writes values unescaped into `value="..."` attributes (main/pages/profile.js:73, 78, 93), into textareas (main/pages/profile.js:85, 89, 100) and into `data-job="..."` (main/pages/applyJobs.js:62). A value containing `"` or an entity such as `&amp;`, or a textarea value that starts with a newline, comes back changed.
- The legacy `main/main.js` repeats the modular code, so the modular members cover it:
  - header derivation (main/main.js:27-43);
  - the home page (main/main.js:48-145);
  - the job listing and apply buttons (main/main.js:148-264), with the same "<title> at <company>" rule at lines 178-183;
  - the auth page (main/main.js:266-421);
  - profile rendering (main/main.js:423-533);
  - the profile edit controller (main/main.js:535-764), with the same Edit/Cancel snapshot and the same save guard and upload abort.

  Its `showMessage` (main/main.js:3-8) skips the existence checks. That is modelled as the modal preconditions of `Legacy.NavigateTo` and `Legacy.Logout`. Its `closeModal` (main/main.js:11-13) likewise assumes the modal exists; `Session.Shell.CloseModal` covers the case where it does.
- When the legacy page lacks the modal, the legacy handlers other than `navigateTo` and `logout` crash. That crash is not modelled.
