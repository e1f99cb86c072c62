# MoodMate: a Dafny model of its screen logic, mood statistics and auth providers

MoodMate is a React Native mood journal backed by a hosted document
database, auth service and blob store. Most of the app is layout, or thin
wrappers around the backend's client library. The logic that the app
decides for itself is modelled here:

- **Weekly mood statistics** (`MoodStats`, utils/stats.ts). From a list of
  entries, count how many of each mood (😊, 😢, 😡, 😌, in that order) are
  dated within the window `[weekAgo, now]`. The model is a pure function.
  The lemmas cover the slot counts against a single-pass reference count,
  inclusive bounds at both ends, unknown moods being ignored, the sum of
  the slots, and order independence.
- **Sign-up and sign-in screens** (`RegisterScreen`, `LoginScreen`, with the
  shared `Ui`). Each press handler becomes a method on a `ScreenState`
  object. That object holds the screen's `loading` flag and a log of the
  handler's effects: alerts, `setLoading`, the auth-service call and
  `router.replace`. The object invariant keeps `loading` equal to the
  last `SetLoading` in the log. Each handler is proved to append exactly
  the effects given by a pure function (`RegisterEffects`, `LoginEffects`).
  The contracts of those functions state the check order, the call
  arguments, the alert texts and the navigation rule. Lemmas show that
  `loading` is up while the call is in flight and down afterwards.
- **Journal card** (`JournalCard`). Maps a mood to its label and to its
  two gradient colours. Also models the delete confirmation and whether
  the edit and delete actions are shown.
- **Auth providers**. `AuthContext` models contexts/AuthContext.tsx, which
  has a role, a `'user'` fallback and `signUp`; App.tsx and
  app/_layout.tsx mount this provider. `UseAuthContext` models
  context/AuthContext.tsx, which stores the role verbatim. Its `useAuth`
  is what the sign-in, sign-up and tab screens read, but nothing mounts
  its provider. Each provider is a class whose `OnAuthStateChanged`
  method handles one auth notification. The users-document read in that
  method may find the document, find none, or reject. One lemma pins down
  the only case where the two providers disagree. Sign-up's role and
  profile derivation are pure functions.
- **Which session the screens see** (`ScreenSession`). `useAuth` returns
  the nearest mounted provider's value, or the context's default value.
  The screens get the default, so their redirect never fires; see
  "## Findings".

Inputs the app gets from outside are parameters of the model:

- The clock: `now`, `weekAgo` and the sign-up `createdAt`.
- The settlement of an awaited auth call: `CallOutcome`, either
  `Resolved` or `Rejected(message)`.
- How the read of a uid's users document settles: `Lookup`, which is
  `Missing`, `Found(roleField)` or `Failed`.
- The form contents at the moment a button is pressed.

Entries are `Entry(date, mood)`. utils/stats.ts imports an `Entry` type
that services/entries.ts does not export, and it reads `e.date` and
`e.mood`. Those two fields are all the model keeps.

Dafny sequences are values. `ComputeWeeklyMoodCounts` therefore cannot
modify the caller's list, which is the source's behaviour too.

## Model

| member | source | states |
|---|---|---|
| `MoodStats.ComputeWeeklyMoodCounts` | utils/stats.ts:7-18 | exactly four slots, each at most the number of in-window entries and at most the length of the input |
| `MoodStats.Windowed` | utils/stats.ts:12-14 | the window filter keeps only entries with weekAgo <= date <= now and is no longer than its input |
| `MoodStats.WithMood` | utils/stats.ts:17 | the mood filter keeps only entries with the given mood |
| `MoodStats.WindowedMultiset` | utils/stats.ts:12-14 | the window filter keeps every copy of each in-window entry, and nothing else |
| `MoodStats.WithMoodMultiset` | utils/stats.ts:17 | the mood filter keeps every copy of each entry of that mood, and nothing else |
| `MoodStats.WindowedAppend` | utils/stats.ts:12-14 | filtering a concatenation is concatenating the filtered parts |
| `MoodStats.WithMoodAppend` | utils/stats.ts:17 | the mood filter distributes over concatenation |
| `MoodStats.FilterThenCountIsMatchCount` | utils/stats.ts:12-17 | filtering by window and then by mood counts exactly what a single-pass count of in-window entries of that mood counts |
| `MoodStats.SlotIsMatchCount` | utils/stats.ts:12-17 | slot i equals the number of entries dated in [weekAgo, now] whose mood is the i-th of 😊, 😢, 😡, 😌 |
| `MoodStats.WindowedSameBag` | utils/stats.ts:12-14 | inputs holding the same entries the same number of times have the same in-window entries |
| `MoodStats.WithMoodSameBag` | utils/stats.ts:17 | lists holding the same entries the same number of times have equally many entries of each mood |
| `MoodStats.CountsIgnoreOrder` | utils/stats.ts:12-17 | any permutation of the input gives the same four counts |
| `MoodStats.InsertEntry` | utils/stats.ts:12-17 | inserting an entry anywhere adds one to its mood's slot when it is in the window and one of the four moods, and changes no other slot |
| `MoodStats.WindowBoundsInclusive` | utils/stats.ts:13 | entries dated exactly weekAgo or exactly now are counted; entries dated weekAgo - 1 or now + 1 change nothing |
| `MoodStats.UnknownMoodIgnored` | utils/stats.ts:16-17 | an entry whose mood is none of the four emojis never changes the result |
| `MoodStats.BucketsPartition` | utils/stats.ts:16-17 | the four mood filters and the unrecognised entries together account for every entry exactly once |
| `MoodStats.SlotSum` | utils/stats.ts:12-17 | the four slots sum to at most the number of in-window entries; they sum to exactly that number if and only if every in-window entry has one of the four moods |
| `JournalCard.MoodLabel` | components/JournalCard.tsx:56-58 | the label is Happy, Sad or Angry exactly for 😊, 😢, 😡, and Calm for every other string |
| `JournalCard.MoodColors` | components/JournalCard.tsx:31-39 | always two colours; the listed pair for each emoji; any other mood gets the 😢 pair |
| `JournalCard.UnknownMoodLabelAndColour` | components/JournalCard.tsx:31-58 | an unknown mood is labelled like 😌 but coloured like 😢, and the 😢 colours differ from the 😌 ones |
| `JournalCard.OnDeleteCalls` | components/JournalCard.tsx:20-28 | `onDelete` is called, once and with the entry's id, exactly when Delete is chosen; Cancel calls nothing |
| `JournalCard.VisibleActions` | components/JournalCard.tsx:66-75 | edit and delete are both shown unless `showActions` is explicitly false (it defaults to true, line 18); otherwise neither is shown |
| `Ui.RedirectEffects` | app/register.tsx:21-25 | a change of user to a signed-in user issues one `router.replace('/(tabs)')`; a signed-out user issues nothing |
| `Ui.ScreenState.constructor` | app/register.tsx:16 | a mounted screen starts with `loading` false and no effects |
| `Ui.ScreenState.OnUserChanged` | app/login.tsx:15-19 | the redirect effect appends exactly `RedirectEffects(user)` and leaves `loading` alone |
| `Ui.ScreenState.SetLoadingFlag` | app/register.tsx:38 | `setLoading(on)` sets the flag to `on` and logs `SetLoading(on)`, keeping the flag equal to the last logged change |
| `Ui.LoadingAfterAppend` | app/register.tsx:38-46 | replaying two effect logs one after the other is replaying their concatenation (the basis of the `loading` lemmas) |
| `RegisterScreen.RegisterEffects` | app/register.tsx:27-47 | an empty name, email or password gives only the "Please fill in all fields" alert, whatever confirmPassword is; otherwise a password mismatch gives only the "Passwords do not match" alert; `register` is called, once and with (email, password, fullName), if and only if both checks pass; the call is bracketed by SetLoading(true) and SetLoading(false), with three effects in all on success and four on failure; a resolved call shows no alert; a rejected call shows the fixed failure alert and no other, and that alert appears only then; every alert is one of the three fixed texts; the handler never navigates |
| `RegisterScreen.RegisterLoading` | app/register.tsx:38-46 | `loading` is true when `register` is called and false after the press, on success and on failure; a press stopped by a check leaves `loading` as it was |
| `RegisterScreen.FailureMessageIgnored` | app/register.tsx:42-43 | the effects of a rejected `register` do not depend on the error's message |
| `RegisterScreen.HandleRegister` | app/register.tsx:27-47 | the handler appends exactly `RegisterEffects(form, outcome)` to the log and keeps the screen invariant; `loading` ends false if the call was made and unchanged otherwise |
| `LoginScreen.LoginEffects` | app/login.tsx:21-36 | an empty email or password gives only the "Please fill in all fields" alert; `login` is called, once and with (email, password), if and only if both are filled in; the call is bracketed by SetLoading(true) and SetLoading(false), four effects in all; `router.replace('/(tabs)')` happens if and only if the call was made and resolved, and always after the call; a rejection shows "Login Failed" with the error's own message; a resolved call shows no alert |
| `LoginScreen.LoginLoading` | app/login.tsx:27-35 | `loading` is true when `login` is called and false after the press on every path that calls; a press stopped by the check leaves `loading` as it was |
| `LoginScreen.HandleLogin` | app/login.tsx:21-36 | the handler appends exactly `LoginEffects(email, password, outcome)` and keeps the screen invariant; `loading` ends false if the call was made and unchanged otherwise |
| `AuthContext.RoleAfter` | contexts/AuthContext.tsx:26-38 | signed out gives a null role; signed in with no document gives "user"; a stored non-empty role is kept; a missing or empty role falls back to "user"; a rejected read keeps the previous role; after a read that settles, a signed-in role is present and never empty |
| `AuthContext.AuthProvider.constructor` | contexts/AuthContext.tsx:20-22 | the provider starts with user null, role null and loading true |
| `AuthContext.AuthProvider.OnAuthStateChanged` | contexts/AuthContext.tsx:24-41 | after a notification, user is its argument and role is `RoleAfter(u, lookup, old role)`; loading becomes false unless the read rejected, in which case it keeps its old value; loading is true exactly until the first notification that ran to the end, so it is never set back to true, and a rejected first read leaves it true |
| `AuthContext.SignUpRole` | contexts/AuthContext.tsx:53 | the role is "admin" if and only if the admin code is exactly "ADMIN123", and "user" otherwise |
| `AuthContext.Name` | contexts/AuthContext.tsx:56-57 | `name \|\| ''`: a given name is kept, a missing one becomes "" |
| `AuthContext.SignUpProfile` | contexts/AuthContext.tsx:54-60 | the stored profile copies the email and the creation time, stores a missing first or last name as "", and stores "admin" as the role exactly when the admin code matches |
| `AuthContext.SignUpRoleReadBack` | contexts/AuthContext.tsx:31-60 | a notification whose read finds the profile sign-up stored yields "admin" exactly when the admin code was given, and "user" otherwise |
| `AuthContext.EarlyLookupSeesUser` | contexts/AuthContext.tsx:30-54 | if the notification raised by creating the account reads before `setDoc` has stored the profile, the provider holds "user" although the stored role is "admin" |
| `UseAuthContext.RoleAfter` | context/AuthContext.tsx:29-38 | signed out gives null; signed in with a document gives its role field verbatim (possibly missing or empty); signed in with no document gives "user"; a rejected read keeps the previous role |
| `UseAuthContext.AuthProvider.constructor` | context/AuthContext.tsx:12-23 | the provider starts with the context's default value: user null, userRole null, loading true |
| `UseAuthContext.AuthProvider.OnAuthStateChanged` | context/AuthContext.tsx:26-41 | after a notification, user is its argument and userRole is `RoleAfter(u, lookup, old userRole)`; loading becomes false unless the read rejected, and is true exactly until the first notification that ran to the end |
| `UseAuthContext.ProvidersDifferOnlyOnFalsyRole` | context/AuthContext.tsx:30-35 | from corresponding roles, the two providers hold the same role after the same notification if and only if it is not a signed-in user whose document has a missing or empty role |
| `UseAuthContext.SignUpRoleReadBack` | context/AuthContext.tsx:30-35 | a profile stored by sign-up is read back by this provider with the role sign-up derived |
| `ScreenSession.UseAuth` | context/AuthContext.tsx:12-18 | with no provider mounted, `useAuth` gives the default value, whose user is null and loading true; with one mounted, it gives that provider's value |
| `ScreenSession.RegisterAsWired` | app/register.tsx:17-25 | with only the role-carrying provider mounted, a successful sign-up signs the account in there, but the screen logs exactly the handler's effects and never navigates |
| `ScreenSession.RegisterWithSessionMounted` | app/register.tsx:21-47 | with the screens' own provider mounted, a successful sign-up followed by its notification ends with `router.replace('/(tabs)')` |

These helpers are used by the members above and are defined to match the
cited lines: `RegisterScreen.MissingField` (app/register.tsx:28),
`RegisterScreen.Submits` (app/register.tsx:28-36), `LoginScreen.Submits`
(app/login.tsx:22), `MoodStats.InWindow` (utils/stats.ts:13) and
`Common.Settles` (contexts/AuthContext.tsx:30-40: a rejected read ends
the handler before `setLoading(false)`).

## Findings

| source | as written | input that shows it | evidently intended | confidence | as-written member | corrected member |
|---|---|---|---|---|---|---|
| app/_layout.tsx:9 | The root layout (and App.tsx:10) mounts only the provider of contexts/AuthContext.tsx. app/register.tsx:17 and app/login.tsx:13 read `useAuth` from context/AuthContext.tsx, so they get its default value, whose `user` is always null. | A sign-up that passes both checks and whose `register` resolves: the account is signed in, but the redirect at app/register.tsx:21-25 sees no user and the screen stays put. | A provider of the screens' context is mounted above them, so the sign-in notification reaches it and the redirect sends the user to /(tabs), as the comment at app/register.tsx:41 says. | not executed; high (follows from the mounting code alone) | `ScreenSession.RegisterAsWired` | `ScreenSession.RegisterWithSessionMounted` |

## Left out

- The clock and date parsing in utils/stats.ts:8-10. `new Date()`, `setDate(now.getDate() - 7)` with its local-time and daylight-saving rollover, and `new Date(e.date)` parsing are not modelled. An unparsable date gives NaN, which fails both comparisons and so is silently excluded; that case is not modelled either. `now` and `weekAgo` are parameters, and an entry's date is an integer instant. The model does not require `weekAgo <= now`. When the window is empty, every slot is 0.
- Emoji strings are single Unicode scalar values here. JavaScript stores them as two UTF-16 code units. The source only compares them for equality, so this makes no difference.
- The gap between `setUser(u)` and the awaited `getDoc` in both providers. Each notification is one atomic step, so the model does not capture another notification, or a read of the context, landing between the two updates. The intermediate state (new user, old role) is not represented.
- The UI's `disabled={loading}` on the buttons. Each handler runs to completion in one step, so no second press can arrive while a call is in flight.
- The text-input handlers (`setForm`, `setEmail`, `setPassword`). The form contents are parameters of the press handler.
- AuthContext.SignUpRoleReadBack: holds only for a notification whose read runs after `signUp`'s `setDoc` (contexts/AuthContext.tsx:54). Creating the account (line 50) already raises a notification, and its read may run first. The model does not order the two. `AuthContext.EarlyLookupSeesUser` states the outcome when the read comes first.
- A rejected users-document read is modelled by its effect on the provider's state. The unhandled promise rejection that JavaScript then reports is not modelled.
- The screens are modelled with the user they are given (`Ui.ScreenState.OnUserChanged`). `ScreenSession` shows what they are given as the app is wired.
- `signIn`, `signOutUser` and the account-creation call inside `signUp` (contexts/AuthContext.tsx:45-65). They are one-call wrappers over the auth service. `signUp` is modelled from its payload to the stored profile. A failed account creation, which throws before anything is stored, is not modelled.
- `authService.register` and `authService.login` (services/authService.ts). They are foreign calls. Their outcome is the `CallOutcome` parameter.
- The rest of the repository: the journal and entry services (Firestore queries, with filtering and ordering done by the database), image upload, the other screens and components (MoodPicker animation, MoodSelector, EntryCard, Loading), routing and layouts, and all styling. There is no paginated or live-merging feed store in the source, so none is modelled.
- `types/index.ts` only declares types. Its `MoodType` is never used by the logic, which works on emoji strings.
- The `users` document's `role` field. It is read from untyped data and modelled as absent or a string. A non-string value, such as a number, is not modelled.
