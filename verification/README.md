# The Narrative Weaver — a verified model of its core

The Narrative Weaver is a journaling web app. On the server, a signed-in user
writes diary entries (text, an optional image URL and an optional free-form
feeling). They can also:

- edit and delete those entries;
- keep a profile (name, email, phone, date of birth, gender, ethnicity, address);
- change their password;
- delete their account, which deletes every entry they own;
- ask an AI text generator for a summary or a deeper analysis of the entries in a date range;
- export the entries in a range as a Word document or a PDF.

The browser client keeps Redux slices for the diary list, the
authenticated user, the profile and the colour theme. Its profile page
guards the password form and the account-deletion confirmation.

This Dafny project models that core:

- **Server stores.** The entry collection and the users collection are
  classes holding a map from id to record. Each handler is a method that
  states the new contents of the map. Every handler but the entry listing
  also returns the HTTP status it sends; the listing returns the entries.
  The two stores' `Valid()` invariants are preserved: records are keyed by
  their own id, they pass the schema validators, and emails are unique.
- **The entry query.** `find({user, createdAt}).sort({createdAt})` is used by
  the list, AI and export handlers. It is a method that walks the map and
  inserts each match in creation order. It is proved to return exactly the
  matching entries, each once, in the requested order.
- **Pure logic.** These are modelled as functions, with lemmas about them:
  - the field-merge rules of entry and profile updates;
  - the email pattern;
  - range selection;
  - the two AI transcripts and the profile context;
  - the export's three paragraphs per entry;
  - the client's error-message fallback and the no-token guard of each profile request.
- **Client state.** Each slice is a class whose reducers are methods. Every
  reducer states the whole new state as an update of `old(View())`. The
  profile page's local state is a class whose handlers take the settled
  outcome of the request they dispatch.

External services and libraries are parameters, so every proof holds for any choice of them:

- bcrypt and JWT are the `hash` and `sign` functions of `UserStore`;
- the AI generator is a function `Prompt -> Option<string>` that may fail;
- the clock is a `Clock` holding "now" and the instants one week, one month
  and one year earlier;
- date formatting is a `string`-valued function of a timestamp.

## Model

| member | source | states |
|---|---|---|
| Common.Or | server/controllers/diaryEntryController.js:65-66 | JavaScript `a \|\| b` on optional strings: the first when it is present and non-empty, else the second |
| Common.OrElse | server/controllers/diaryEntryController.js:64 | `a \|\| fallback`: the value when truthy, else the fallback |
| DiaryEntryModel.ValidEntry | server/models/diaryEntryModel.js:10-13 | the schema accepts an entry exactly when its required text is non-empty |
| DiaryEntryModel.NewEntry | server/models/diaryEntryModel.js:3-26 | a newly saved entry carries the owner, text, image and feeling it was given, both timestamps equal to the save time, and is valid (non-empty text) |
| DiaryEntryModel.FeelingIsFreeForm | server/models/diaryEntryModel.js:18-21 | validity never depends on the feeling: any label or none is accepted |
| DiaryEntryModel.ImageIsOptional | server/models/diaryEntryModel.js:14-17 | validity never depends on the image |
| EntryQuery.IsAnswer | server/controllers/diaryEntryController.js:10 | a correct answer holds only stored entries of the owner inside the date range, and is empty only when no stored entry matches |
| EntryQuery.Find | server/controllers/diaryEntryController.js:10 | the answer holds exactly the stored entries of the owner inside the date filter, each once, sorted by `createdAt` in the requested direction |
| EntryQuery.InsertSorted | server/controllers/aiController.js:35 | inserting an entry at its place keeps the answer sorted and adds exactly that entry |
| DiaryEntryController.MergeFields | server/controllers/diaryEntryController.js:64-66 | each of text, image and feeling is replaced only by a truthy supplied value; id, owner and timestamps are kept |
| DiaryEntryController.SaveUpdate | server/controllers/diaryEntryController.js:64-68 | a saved update keeps id, owner and creation time, replaces text, image and feeling only by truthy supplied values, and moves `updatedAt` to the save time exactly when one of them changed |
| DiaryEntryController.SaveUpdateKeepsIdentity | server/controllers/diaryEntryController.js:64-68 | a saved update keeps id, owner and creation time, and keeps the entry valid |
| DiaryEntryController.SaveUpdateIdempotent | server/controllers/diaryEntryController.js:64-68 | sending the same update a second time leaves the entry exactly as the first time did |
| DiaryEntryController.OthersEntries | server/controllers/userController.js:177 | the entries kept by `deleteMany({user})`: exactly those of other owners, unchanged |
| DiaryEntryController.EntryStore.constructor | server/models/diaryEntryModel.js:28 | an empty, valid collection |
| DiaryEntryController.EntryStore.List | server/controllers/diaryEntryController.js:8-15 | only the caller's entries, all of them, newest first |
| DiaryEntryController.EntryStore.Create | server/controllers/diaryEntryController.js:22-42 | 400 with the store unchanged when the text is falsy; otherwise 201 and exactly one new entry under a fresh id, owned by the caller, with the given fields |
| DiaryEntryController.EntryStore.Update | server/controllers/diaryEntryController.js:49-73 | 404 for an unknown id before 401 for a non-owner, both changing nothing; otherwise only that entry becomes the merged and saved one |
| DiaryEntryController.EntryStore.Delete | server/controllers/diaryEntryController.js:80-98 | 404 before 401, both changing nothing; otherwise exactly that entry is removed and every other one is kept |
| DiaryEntryController.EntryStore.DeleteMany | server/controllers/userController.js:177 | the collection becomes the entries of other owners |
| UserModel.ValidEmail | server/models/userModel.js:14 | an accepted email has at least five characters, among them an `@` and a `.` |
| UserModel.ValidUser | server/models/userModel.js:6-15 | a stored user has a non-empty name and an email the pattern accepts |
| UserModel.ValidEmailIsPattern | server/models/userModel.js:14 | the email check holds exactly when the unanchored pattern `.+@.+\..+` matches somewhere (JavaScript `.` refuses line terminators) |
| UserModel.EmailPatternExamples | server/models/userModel.js:14 | "a@b.c" and "<x@y.z>" pass; "a@b.", "@b.c" and an address broken by a newline fail |
| UserController.MergeProfile | server/controllers/userController.js:101-113 | name and email kept when the supplied value is falsy; phone, gender, ethnicity and address overwritten; a falsy date of birth becomes null; the stored password becomes the hash of a truthy supplied password and is kept otherwise |
| UserController.MergeProfilePassword | server/models/userModel.js:31-37 | an update without a password leaves the old password working, and one with a password makes that password the one that logs in |
| UserController.MergeProfileValid | server/controllers/userController.js:101-102 | the merged profile still passes the validators whenever its email does |
| UserController.ViewOf | server/controllers/userController.js:79 | the profile view carries every stored field of the user (id, name, email, phone, date of birth, gender, ethnicity, address) and, having no password field, never the password |
| UserController.UserStore.constructor | server/models/userModel.js:44 | an empty, valid users collection |
| UserController.UserStore.Register | server/controllers/userController.js:14-48 | 400 with no change for a falsy required field or a taken email; 500 with no change for an email the pattern refuses; 201 exactly otherwise, with one new user holding the hash of the password and a response without it |
| UserController.UserStore.Login | server/controllers/userController.js:51-74 | 400 for a falsy field; 200 exactly when a user with that email has a password hashing to the stored one; the same 401 for an unknown email and a wrong password |
| UserController.UserStore.GetProfile | server/controllers/userController.js:77-88 | 404 for a missing user, else the stored profile without the password |
| UserController.UserStore.UpdateProfile | server/controllers/userController.js:96-134 | 404 for a missing user; 500 and no change when the merged email is refused or taken by another user; otherwise only the caller's record becomes the merged one and the response repeats it with a fresh token |
| UserController.UserStore.ChangePassword | server/controllers/userController.js:142-163 | 400 for a falsy field; 401 with nothing changed for a missing user or a wrong current password; otherwise only the caller's stored hash changes, to the hash of the new password |
| UserController.UserStore.DeleteAccount | server/controllers/userController.js:171-189 | 404 with nothing changed for a missing user; otherwise every entry of the user is deleted, every other entry kept, then the user is removed |
| AiController.GetStartDate | server/controllers/aiController.js:11-17 | a lower bound exists exactly for "weekly", "monthly" and "yearly"; it is the instant one week, one month and one year back respectively, and never after now |
| AiController.SummaryFilter | server/controllers/aiController.js:25-33 | 400 exactly for "custom" missing a date; "custom" gives inclusive bounds at both ends; any other range, absent included, gives the lower bound or no filter |
| AiController.Join | server/controllers/aiController.js:57 | no parts join to the empty string, one part to itself, and the first part always starts the join |
| AiController.JoinAppend | server/controllers/aiController.js:57 | joining two non-empty lists is the two joins with one separator between them |
| AiController.JoinLength | server/controllers/aiController.js:57 | a join of n parts holds the parts' characters and n - 1 separators |
| AiController.SummaryBlocks | server/controllers/aiController.js:52-56 | one "Date: d, Feeling: f\nEntry: t" block per entry, in entry order, with the feeling defaulting to "Not specified" |
| AiController.SummaryBlock | server/controllers/aiController.js:55 | a block starts with "Date: " and ends with the entry's text |
| AiController.SummaryTranscript | server/controllers/aiController.js:52-57 | no entries give an empty transcript; otherwise it starts with the first entry's block |
| AiController.AnalysisTranscript | server/controllers/aiController.js:120 | no entries give an empty transcript; otherwise it starts with the first entry's text |
| AiController.Texts | server/controllers/aiController.js:120 | the entry texts, one per entry, in entry order |
| AiController.SummaryTranscriptAppend | server/controllers/aiController.js:52-57 | the summary transcript of one entry is its block; appending an entry appends the horizontal-rule separator and its block |
| AiController.AnalysisTranscriptAppend | server/controllers/aiController.js:120 | the analysis transcript of one entry is its text; appending an entry appends a blank line and its text |
| AiController.AnalysisTranscriptLength | server/controllers/aiController.js:120 | the analysis transcript is as long as all texts plus one separator between each two |
| AiController.ProfileContextOf | server/controllers/aiController.js:45-50 | a missing or empty gender, ethnicity or date of birth reads "Not specified"; present ones are shown |
| AiController.Respond | server/controllers/aiController.js:37-83 | no entries: 200 with the fixed message under the mode's field; otherwise 200 with the generator's text for the prompt built from the entries and the user, or 500 with the fixed failure message when the user record is gone or the generator fails; no other status |
| AiController.EmptyNeverGenerates | server/controllers/aiController.js:37-41 | with no entries the reply is a 200 and the same whatever the generator would do |
| AiController.ReplyIsGeneratedText | server/controllers/aiController.js:77-83 | with entries the reply is the generator's text for the prompt built from them, or a 500 when the generator fails or the user record is gone |
| AiController.Generate | server/controllers/aiController.js:20-85 | a refused custom range is a 400 before any query; otherwise the entries are the query's answer in ascending order and the reply is determined by them as above (also generateDeeperAnalysis, lines 88-148) |
| ExportController.ExportFilter | server/controllers/exportController.js:10-27 | "7days", "month" and "year" give a lower bound only; "custom" gives inclusive bounds and, missing a date, a 500; "all" and any other name give no filter |
| ExportController.RangeNamesDiffer | server/controllers/exportController.js:10-27 | the summary's range names select nothing in the export and the export's names select nothing in the summary |
| ExportController.FeelingText | server/controllers/exportController.js:44 | "Feeling: X" for a truthy feeling, else the empty string |
| ExportController.EntryBlocks | server/controllers/exportController.js:42-58 | three paragraphs per entry: the date line, the feeling line, then the entry's text; none styled as the title |
| ExportController.Paragraphs | server/controllers/exportController.js:42-59 | the flattened list has exactly three paragraphs per entry and no title paragraph |
| ExportController.ParagraphsAt | server/controllers/exportController.js:42-59 | exactly 3·n paragraphs, paragraph 3i + k being the k-th (date, feeling, text) of entry i |
| ExportController.ParagraphsAppend | server/controllers/exportController.js:42-59 | appending an entry appends its three paragraphs, so entry order is kept |
| ExportController.DocxBlocks | server/controllers/exportController.js:65 | the Word document is the title paragraph followed by all entry paragraphs, 1 + 3·n in all |
| ExportController.DocxTitleFirst | server/controllers/exportController.js:65 | the Word document is the title followed by 3·n entry paragraphs, none of them styled as a title |
| ExportController.PdfBlocks | server/controllers/exportController.js:80-91 | the PDF loop writes the title, then date, feeling and text per entry in order: the same blocks as the Word document |
| ExportController.Render | server/controllers/exportController.js:37-100 | no entries is a 404 whatever the format; with entries, a file exactly for "docx" or "pdf", named and typed by its format and both carrying the Word document's blocks; any other format a 400 |
| ExportController.ExportEntries | server/controllers/exportController.js:32-100 | a custom range missing a date is a 500; otherwise the entries are the query's answer in ascending order and the reply is rendered from them |
| DiarySlice.RemoveId | client/src/features/diary/diarySlice.js:128-130 | keeps exactly the entries whose id differs from the payload's |
| DiarySlice.RemoveIdAppend | client/src/features/diary/diarySlice.js:128-130 | filtering works piecewise, so the kept entries stay in their order |
| DiarySlice.RemoveAbsentIdKeepsAll | client/src/features/diary/diarySlice.js:129 | a payload without an id, which is what the server sends, removes nothing |
| DiarySlice.FindIndex | client/src/features/diary/diarySlice.js:144-146 | the first position holding the id, or -1 exactly when no entry has it |
| DiarySlice.ReplaceFirst | client/src/features/diary/diarySlice.js:147-149 | the list keeps its length |
| DiarySlice.ReplaceFirstAt | client/src/features/diary/diarySlice.js:141-150 | only the first entry with the id is replaced and every other position is kept; no match means no change |
| DiarySlice.DiaryState.constructor | client/src/features/diary/diarySlice.js:4-11 | the initial state |
| DiarySlice.DiaryState.Reset | client/src/features/diary/diarySlice.js:89 | back to the initial state |
| DiarySlice.DiaryState.RequestPending | client/src/features/diary/diarySlice.js:93-95 | only isLoading is set (also lines 106-108, 138-140) |
| DiarySlice.DiaryState.RequestRejected | client/src/features/diary/diarySlice.js:101-105 | isError and the message set, the entries untouched (also lines 114-118, 151-155) |
| DiarySlice.DiaryState.CreateFulfilled | client/src/features/diary/diarySlice.js:96-100 | the new entry at index 0, the old ones after it in order, one longer |
| DiarySlice.DiaryState.GetFulfilled | client/src/features/diary/diarySlice.js:109-113 | the list becomes the payload |
| DiarySlice.DiaryState.DeletePending | client/src/features/diary/diarySlice.js:120-123 | only isDeleting changes, to the id |
| DiarySlice.DiaryState.DeleteFulfilled | client/src/features/diary/diarySlice.js:124-131 | isDeleting reset, and the entries with the payload's id removed |
| DiarySlice.DiaryState.DeleteRejected | client/src/features/diary/diarySlice.js:132-137 | isDeleting reset, isError and the message set, the entries untouched |
| DiarySlice.DiaryState.UpdateFulfilled | client/src/features/diary/diarySlice.js:141-150 | the first entry with the payload's id replaced, all else kept |
| AuthSlice.Merge | client/src/features/auth/authSlice.js:73 | the payload's keys win; every other key of the user keeps its value; no other key appears |
| AuthSlice.MergeIdempotent | client/src/features/auth/authSlice.js:73 | merging the same payload again changes nothing |
| AuthSlice.AuthState.constructor | client/src/features/auth/authSlice.js:12-18 | the stored user with all flags clear |
| AuthSlice.AuthState.Reset | client/src/features/auth/authSlice.js:61-66 | flags and message cleared, the user kept |
| AuthSlice.AuthState.UpdateUser | client/src/features/auth/authSlice.js:68-83 | no change without a user; otherwise only the user changes, to the merge |
| AuthSlice.AuthState.AuthPending | client/src/features/auth/authSlice.js:87-89 | only isLoading is set (also lines 107-109) |
| AuthSlice.AuthState.AuthFulfilled | client/src/features/auth/authSlice.js:90-100 | the payload becomes the user and isSuccess is set (also lines 110-120) |
| AuthSlice.AuthState.AuthRejected | client/src/features/auth/authSlice.js:101-106 | the user cleared, isError and the message set (also lines 121-126) |
| AuthSlice.AuthState.LogoutFulfilled | client/src/features/auth/authSlice.js:127-128 | only the user changes, to null |
| UserSlice.GetErrorMessage | client/src/features/user/userSlice.js:16-23 | the first truthy of the server's message, the server's error, the error's message, else the fixed text; never empty |
| UserSlice.HasToken | client/src/features/user/userSlice.js:29 | a request may be sent exactly when there is an auth user whose `token` is present and non-empty |
| UserSlice.GetUserProfile | client/src/features/user/userSlice.js:26-42 | without a token: rejected with the fixed text and no request; with one: the reply's data, or the error's message |
| UserSlice.UpdateUserProfile | client/src/features/user/userSlice.js:45-65 | as above, and a success also dispatches the auth user update with the reply |
| UserSlice.ChangePassword | client/src/features/user/userSlice.js:68-84 | as above; a success yields the server's message or the fixed confirmation |
| UserSlice.DeleteAccount | client/src/features/user/userSlice.js:87-106 | as above; a success yields the fixed text and dispatches logout |
| UserSlice.NoTokenNoRequest | client/src/features/user/userSlice.js:29-31 | without a token every request rejects the same way whatever the server would answer, and none is sent (also lines 48-50, 71-73, 89-91) |
| UserSlice.RejectionsHaveMessages | client/src/features/user/userSlice.js:39-41 | a rejected profile request always carries a non-empty message |
| UserSlice.UserState.constructor | client/src/features/user/userSlice.js:7-13 | the initial state |
| UserSlice.UserState.Reset | client/src/features/user/userSlice.js:112 | back to the initial state |
| UserSlice.UserState.GetProfilePending | client/src/features/user/userSlice.js:117-122 | isLoading set; isError, isSuccess and the message cleared |
| UserSlice.UserState.OtherPending | client/src/features/user/userSlice.js:135-137 | only isLoading is set (also lines 150-152, 165-167) |
| UserSlice.UserState.ProfileFulfilled | client/src/features/user/userSlice.js:123-127 | the payload becomes the profile (also lines 138-142) |
| UserSlice.UserState.ChangePasswordFulfilled | client/src/features/user/userSlice.js:153-157 | the message set, the profile untouched |
| UserSlice.UserState.DeleteAccountFulfilled | client/src/features/user/userSlice.js:168-173 | the profile becomes null |
| UserSlice.UserState.Rejected | client/src/features/user/userSlice.js:128-132 | isError and the message set, the profile untouched (also lines 143-147, 158-162, 174-178) |
| ThemeSlice.Toggled | client/src/features/theme/themeSlice.js:22 | 'light' becomes 'dark', anything else 'light' |
| ThemeSlice.ToggledIsKnown | client/src/features/theme/themeSlice.js:22 | after a toggle the mode is 'light' or 'dark' |
| ThemeSlice.ToggleTwice | client/src/features/theme/themeSlice.js:22 | toggling twice restores 'light' and 'dark' and turns any other mode into 'dark' |
| ThemeSlice.ThemeState.constructor | client/src/features/theme/themeSlice.js:13-15 | the initial mode is the one given |
| ThemeSlice.ThemeState.ToggleTheme | client/src/features/theme/themeSlice.js:21-24 | the mode becomes the toggled old mode |
| ThemeSlice.ThemeState.SetTheme | client/src/features/theme/themeSlice.js:25-28 | the mode becomes exactly the payload |
| ProfilePage.Field | client/src/pages/ProfilePage.js:66 | `obj.key \|\| ''`: the value when truthy, else the empty string |
| ProfilePage.FromProfile | client/src/pages/ProfilePage.js:65-75 | every form field is the profile's value or '' when missing; a truthy date of birth is shown as its ISO date |
| ProfilePage.FromAuthUser | client/src/pages/ProfilePage.js:77-85 | name, email and phone from the auth user or ''; the other fields '' |
| ProfilePage.Populate | client/src/pages/ProfilePage.js:63-87 | the profile wins over the auth user; with neither the form is unchanged |
| ProfilePage.PopulateFromUserClearsRest | client/src/pages/ProfilePage.js:76-85 | filling from the auth user empties the fields it does not carry, whatever the form held |
| ProfilePage.PasswordGuard | client/src/pages/ProfilePage.js:139-146 | no error exactly when all three fields are filled and the new password equals the confirmation; the empty-field error is checked first |
| ProfilePage.PasswordFailureMessage | client/src/pages/ProfilePage.js:163 | the rejection's text when non-empty, else the fixed text; never empty |
| ProfilePage.DeleteButtonDisabled | client/src/pages/ProfilePage.js:426 | the button is enabled exactly when the box holds 'DELETE' and no deletion is running |
| ProfilePage.EnabledButtonPassesCheck | client/src/pages/ProfilePage.js:183-186 | an enabled button always passes the handler's own check |
| ProfilePage.ProfileForm.constructor | client/src/pages/ProfilePage.js:23-52 | the initial page state |
| ProfilePage.ProfileForm.SyncForm | client/src/pages/ProfilePage.js:63-87 | only the form changes, to the population result |
| ProfilePage.ProfileForm.CancelEdit | client/src/pages/ProfilePage.js:90-105 | edits dropped when a profile is loaded, and edit mode left |
| ProfilePage.ProfileForm.OpenPasswordForm | client/src/pages/ProfilePage.js:121-125 | the form opens with both messages cleared |
| ProfilePage.ProfileForm.ClosePasswordForm | client/src/pages/ProfilePage.js:126-131 | the form closes; the typed fields and messages are cleared |
| ProfilePage.ProfileForm.HandlePasswordSubmit | client/src/pages/ProfilePage.js:134-167 | a guard failure shows its message and sends nothing; otherwise exactly the current and new passwords are sent; success clears the three fields, failure shows the rejection; loading ends false |
| ProfilePage.ProfileForm.OpenDeleteModal | client/src/pages/ProfilePage.js:170-174 | the modal opens with an empty box and no error |
| ProfilePage.ProfileForm.CloseDeleteModal | client/src/pages/ProfilePage.js:175-179 | the modal closes with an empty box and no error |
| ProfilePage.ProfileForm.HandleDeleteAccount | client/src/pages/ProfilePage.js:181-198 | a request is sent exactly when the box holds 'DELETE'; success navigates to /login; any failure shows the fixed message |

## Left out

- HTTP, Express routing, the authentication middleware and the axios calls. The caller's id is a parameter. A request's reply, or its settled outcome, is a parameter of the code that consumes it.
- Database failures and the generic 500 paths of every handler, such as a malformed id that cannot be cast. The model derives only these 500s:
  - registering an email the pattern refuses (a validation failure);
  - updating a profile to a refused or taken email (a validation failure or a unique-index violation);
  - an export "custom" range missing a date, where casting `new Date(undefined)` in the query fails;
  - an AI request whose user record is gone (reading its fields throws) or whose generator call fails.
- The AI prompt text around the transcript and the profile context. The model name and the generator call are abstract.
- Calendar arithmetic and date formatting: `setDate`, `setMonth`, `setFullYear`, `toDateString`, `toLocaleString` and `toISOString`. They are parameters, and parsing a custom date string into a timestamp happens before the model.
- Fonts, sizes, spacing and the byte encodings of the Word and PDF documents. A document is its sequence of styled blocks.
- localStorage reads and writes in the auth and theme slices, and the browser-preference lookup of the initial theme. The initial user and mode are constructor arguments.
- The async thunks of the diary and auth slices (network calls). Their reducers are modelled.
- The profile form's submit handler and `onChange`, rendering, the password form's 1.3-second delayed auto-close, and every other page of the client, including DiaryPage's "today" filter.
- The database's order among entries with equal `createdAt`. `EntryQuery.Find` accepts any order of such ties.
- server/routes/aiRoutes.js imports a `generateMonthlySummary` that server/controllers/aiController.js does not export. The routes are not part of this model.
- The pre-save hook calls `next()` without returning (server/models/userModel.js:32-34). The model keeps the effect a save persists: the password is hashed only when it was set. It does not model the race of a second, concurrent hashing.
- updateUserProfile assigns dateOfBirth, gender, ethnicity and address, which the user schema does not declare. The model stores them on the user as the controller writes them; Mongoose's strict mode would drop them on save.
- UserController.UserStore.ChangePassword: does not model a new password equal, as a string, to the stored hash. Mongoose would then see no modification and skip the hashing.
- UserController.MergeProfile: the same corner for a supplied password equal to the stored hash is not modelled.
- Client-side JSON objects (the auth user, a profile reply, an update payload) are maps from string keys to string values. A JSON `null`, such as the `dateOfBirth: null` that updateUserProfile replies with for a falsy date of birth (server/controllers/userController.js:106,122), cannot be represented, so `AuthSlice.Merge` and the user slice do not distinguish a key set to null from a key left out.
- The timestamps plugin moves `updatedAt` to the save time only when a field actually changes value; `DiaryEntryController.SaveUpdate` follows that rule, so an update that changes nothing keeps the old `updatedAt`.

Behaviours the model keeps as the code has them:

- The summary and the export use different range names ("weekly"/"monthly"/"yearly" against "7days"/"month"/"year"). An unknown name gives no filter on both sides.
- An export "custom" range without dates is not refused up front. It fails in the query with a 500, whereas the summary refuses it with a 400.
- Update and delete check for an unknown id (404) before ownership (401).
- An unsupported export format is a 400 only when some entry matched; with no entries it is a 404.
- The client's delete reducer filters by an `id` that the server's delete reply does not carry, so the deleted entry stays in the list until the next fetch (`DiarySlice.RemoveAbsentIdKeepsAll`).
