# MindCare client logic in Dafny

MindCare is a client-only mental-wellness web app. Under its React pages lies
a thin layer of sequential logic that works on the browser's storage. This
project models that layer and proves what it promises:

- **Auth** (`auth.dfy`, the authentication context): the account registry
  stored under `mindcare_users`, and the session made of the `mindcare_token`
  and `mindcare_user` keys and the `user` field. Covers session restore on
  mount, `login`, `register`, `logout`, `forgotPassword` and `updateProfile`.
- **Dashboard** (`dashboard.dfy`): the quick-mood ledger, keyed
  `mood_<id>_<date string>`. The mount effect rebuilds four figures from the
  last 30 days. `quickMoodUpdate` patches them incrementally, `clearAllData`
  deletes by substring, and the page has three display formatters.
- **MoodTracker** (`mood_tracker.dfy`): the detailed ledger stored as one list
  under `mood_entries_<id>`. Covers the save as an upsert by date, emotion
  toggling, the average, the in-place sort behind the "recent 7" view, the
  streak shown, the lookup of today's entry, and the colour, icon and tip
  thresholds.
- **Settings** (`settings.dfy`): the ordered checks of the password form, its
  delayed completion, the single-key notification switch, and the
  camel-case-to-label transform.
- **Chatbot** (`chatbot.dfy`): the send guard and append, the delayed reply,
  and the ordered, case-insensitive keyword classifier.

Shared modules:

- `storage.dfy`: the records and the `LocalStorage` object.
- `text.dfy`: substring search, ASCII case mapping, `trim`, and decimal
  numerals.
- `rounding.dfy`: round-half-up on exact quotients.
- `wrappers.dfy`: `Option`.

Each page is a class whose fields are its React state. The browser storage is
one shared `LocalStorage` object with a `map<string, Value>` that the pages
modify. Storage holds typed values instead of JSON text.

Everything random or external is a parameter of the operation that uses it:

- random ids, tokens and minute draws (1 or 2);
- the fallback reply index (below 8);
- the dates of the last 30 days (`days[0]` is today);
- the answer of the confirmation dialog.

A `setTimeout` callback is a separate method, called when the timer fires.

A chat bubble keeps what it says as data: the typed text, the welcome for a
user name, or the chosen reply. One rendering function maps these to the exact
texts the page shows.

Averages are whole numbers of tenths (7.5 is 75). `Math.round(x * 10) / 10`
and `toFixed(1)` become a round-half-up of the exact quotient. MoodTracker
dates are integer day numbers, because ISO `YYYY-MM-DD` strings sort in
chronological order.

## Model

| member | source | states |
|---|---|---|
| Storage.LocalStorage.SetItem | src/contexts/AuthContext.tsx:67-68 | `setItem` replaces exactly the one key and keeps every other entry |
| Storage.LocalStorage.RemoveItem | src/contexts/AuthContext.tsx:123-124 | `removeItem` drops exactly the one key; an absent key changes nothing |
| Auth.FindCredentials | src/contexts/AuthContext.tsx:55 | the result is the first account whose email and password both equal the given ones; None exactly when no account matches both |
| Auth.FindIndexById | src/contexts/AuthContext.tsx:159 | the result is the first account with the id; None (the -1 of `findIndex`) exactly when no account has it |
| Auth.RegisterStep | src/contexts/AuthContext.tsx:84-98 | registration succeeds iff no account has the email; the old registry stays as a prefix, grown by exactly one account on success and unchanged otherwise |
| Auth.MergeUser | src/contexts/AuthContext.tsx:153 | `{...user, ...data}`: an empty patch keeps the user, a patch setting every field replaces it wholly, and a patched email is taken from the patch |
| Auth.MergeAccount | src/contexts/AuthContext.tsx:161 | `{...users[i], ...data}` keeps the password and creation date, and the merged account's session snapshot is the merged user |
| Auth.MergeIntoRegistry | src/contexts/AuthContext.tsx:158-163 | the registry keeps its length and every account's password and creation date; with no account of that id it is unchanged |
| Auth.LoginAcceptedIff | src/contexts/AuthContext.tsx:54-72 | in an email-unique registry, login accepts iff some account has that email, that password and is verified; a wrong password and an unknown email are both rejected |
| Auth.RegisterKeepsEmailsUnique | src/contexts/AuthContext.tsx:84-99 | one registration keeps an email-unique registry email-unique |
| Auth.RegisterAllKeepsEmailsUnique | src/contexts/AuthContext.tsx:84-99 | any sequence of registrations keeps the registry email-unique, and the existing accounts stay, in place, as a prefix |
| Auth.MergeIntoRegistryTouchesOne | src/contexts/AuthContext.tsx:158-163 | the profile merge keeps the registry's length; it changes only the first account with the user's id, which becomes `{...account, ...patch}`; with no such account the registry is unchanged |
| Auth.UpdateProfileCanDuplicateEmail | src/contexts/AuthContext.tsx:149-165 | as written, a patch can give one account another account's email, so two distinct accounts share it (see Findings) |
| Auth.MergeKeepsEmailsUniqueWhenFree | src/contexts/AuthContext.tsx:149-165 | a merge whose new email no other account holds keeps the registry email-unique |
| Auth.LogoutIdempotent | src/contexts/AuthContext.tsx:122-126 | logging out twice leaves the same storage as logging out once, and logout never touches the registry |
| Auth.AuthProvider.constructor | src/contexts/AuthContext.tsx:37-38 | the provider starts with no user and loading set |
| Auth.AuthProvider.RestoreSession | src/contexts/AuthContext.tsx:40-49 | the user is restored only when both the user key and a non-empty token are stored; loading always ends |
| Auth.AuthProvider.Login | src/contexts/AuthContext.tsx:51-77 | the result is exactly the acceptance rule; the registry and the loading flag never change; a rejection changes nothing else either; an acceptance stores `jwt_token_`+suffix and the matched account's session snapshot, and signs it in |
| Auth.AuthProvider.Register | src/contexts/AuthContext.tsx:79-120 | it fails iff the email is taken, changing nothing then; the loading flag is kept; otherwise it appends exactly one verified account with no picture, keeps the old accounts, stores the token and snapshot, and signs the new account in |
| Auth.AuthProvider.Logout | src/contexts/AuthContext.tsx:122-126 | both session keys are removed, everything else (the loading flag included) is kept, and the user is null |
| Auth.AuthProvider.ForgotPassword | src/contexts/AuthContext.tsx:128-137 | the result is true iff some account has the email; nothing changes |
| Auth.AuthProvider.UpdateProfile | src/contexts/AuthContext.tsx:149-170 | the loading flag is kept; with no user it returns false and changes nothing; otherwise the user becomes `{...user, ...patch}`, the snapshot is stored, and only the registry entry with the user's id is merged |
| Auth.AuthProvider.UpdateProfileUnique | src/contexts/AuthContext.tsx:149-170 | the same update with the same effects on the user, the stored snapshot, the registry and every other key, the loading flag kept; refused, changing nothing, when another account already holds the new email; it keeps an email-unique registry email-unique |
| Rounding.RoundHalfUp | src/pages/Dashboard.tsx:72 | the result is the quotient rounded to the nearest whole number, halves going up |
| Rounding.RoundHalfUpExact | src/pages/Dashboard.tsx:98-103 | rounding a whole quotient gives that quotient back; this is why the first-session shortcut agrees with the general rounded mean (see `Dashboard.IncorporateMood`) |
| Rounding.RoundHalfUpBetween | src/pages/Dashboard.tsx:72 | a quotient between two whole bounds rounds to a value between them |
| Text.IncludesIff | src/pages/Dashboard.tsx:152 | `includes` is true iff the pattern occurs at some position of the string |
| Text.IncludesInfix | src/pages/Dashboard.tsx:152 | a string includes every one of its infixes |
| Text.ToLowerConcat | src/pages/Chatbot.tsx:47 | lower-casing distributes over concatenation |
| Text.ToLowerIdempotent | src/pages/Chatbot.tsx:47 | lower-casing twice is lower-casing once |
| Text.TrimStart | src/pages/Chatbot.tsx:70 | the result is the input with a run of leading whitespace cut off; it is empty iff the input is all whitespace, and otherwise starts with a non-whitespace character |
| Text.TrimEnd | src/pages/Chatbot.tsx:70 | the result is the input with a run of trailing whitespace cut off; it is empty iff the input is all whitespace |
| Text.TrimEmptyIffBlank | src/pages/Chatbot.tsx:70 | `trim()` gives the empty string exactly for blank input |
| Text.NatToStringRoundTrip | src/pages/Dashboard.tsx:132 | the decimal numeral of n is non-empty, all digits, and parses back to n |
| Text.NatToStringInjective | src/pages/Dashboard.tsx:132 | distinct numbers have distinct numerals |
| Text.LeadingNatOfNumeral | src/pages/Dashboard.tsx:132 | a numeral followed by a non-digit reads back as its number |
| Dashboard.MoodKeyInjective | src/pages/Dashboard.tsx:60 | two days of one user never share a quick-mood key |
| Dashboard.MoodValue | src/pages/Dashboard.tsx:64 | 'happy' scores 8, 'neutral' 5, and every other string 2 |
| Dashboard.ScanStats | src/pages/Dashboard.tsx:50-75 | the rebuilt sessions and streak both equal the number of scanned days that hold a mood |
| Dashboard.IncorporateMood | src/pages/Dashboard.tsx:92-107 | one more session and streak day, the drawn minutes added; the `newSessionCount === 1` shortcut gives the same average as the general formula, the old average weighted by the old count plus the new score, rounded to a tenth |
| Dashboard.KeepUnrelated | src/pages/Dashboard.tsx:151-155 | the reset keeps only keys that were stored, each with its stored value, and no kept key contains the id |
| Dashboard.ScanTotalsBounded | src/pages/Dashboard.tsx:56-68 | the scan counts at most as many days as it looks at; the score total lies between 2 and 8 per counted day, the minutes between 1 and 2 per counted day |
| Dashboard.ScanStatsShape | src/pages/Dashboard.tsx:56-77 | sessions = streak = the number of days that hold a mood; all four figures are zero iff none does; otherwise the average is the mean score rounded to a tenth, in 2.0..8.0, and the minutes lie between the count and twice it |
| Dashboard.IncorporateMoodShape | src/pages/Dashboard.tsx:92-110 | the first mood of a day adds one session, one streak day and its minutes; the average becomes the score when n = 0 and round1((avg*n + v)/(n+1)) otherwise, staying within 2.0..8.0 |
| Dashboard.ScanAfterNewMood | src/pages/Dashboard.tsx:56-68 | storing a mood for a scanned day that had none adds one to the count and its score to the total |
| Dashboard.ScanUnaffected | src/pages/Dashboard.tsx:56-68 | the scan of days other than today is the same in two stores that agree on those days |
| Dashboard.QuickPatchAgreesWithRescan | src/pages/Dashboard.tsx:92-106 | after the first check-in of a day, the patched sessions and streak equal what a rebuild would count |
| Dashboard.IncrementalAverageCanDrift | src/pages/Dashboard.tsx:98-103 | the patched average and a rebuilt one can differ: six sad days and a neutral one average 2.4, a neutral check-in patches it to 2.7, and a rebuild gives 2.8 |
| Dashboard.KeepUnrelatedShape | src/pages/Dashboard.tsx:151-155 | a reset removes the user's quick-mood and stats keys and the mood ledger `mood_entries_<id>`, keeps every key not containing the id with its value, and with an empty id removes every key |
| Dashboard.ScanAfterReset | src/pages/Dashboard.tsx:151-164 | after a reset a rebuild finds no mood and yields all-zero figures, matching the zeroed state |
| Dashboard.FormatTimeRoundTrip | src/pages/Dashboard.tsx:130-136 | every "0m", "Nm", "Hh" or "Hh Mm" text reads back as the minutes it was made from |
| Dashboard.FormatTimeInjective | src/pages/Dashboard.tsx:130-136 | distinct minute counts are shown differently |
| Dashboard.FormatTime | src/pages/Dashboard.tsx:130-136 | a shown time is at least two characters and ends in the unit 'm' or 'h' |
| Dashboard.FormatStreak | src/pages/Dashboard.tsx:143-146 | the streak text has at least five characters and ends in the plural 's' exactly when the streak is not 1 |
| Dashboard.FormatAverageMood | src/pages/Dashboard.tsx:138-141 | the text is "--" exactly for a zero average, and otherwise ends in "/10" |
| Dashboard.FormatStreakShape | src/pages/Dashboard.tsx:143-146 | the streak is shown as its numeral and " day" for exactly 1 and " days" otherwise (so 0 gives "0 days"), and the shown number is the streak |
| Dashboard.FormatAverageMoodRoundTrip | src/pages/Dashboard.tsx:138-141 | "--" for 0, and otherwise "X.Y/10", which reads back as the average in tenths |
| Dashboard.DashboardPage.constructor | src/pages/Dashboard.tsx:23-29 | the page starts with no mood today and all-zero figures |
| Dashboard.DashboardPage.Mount | src/pages/Dashboard.tsx:31-79 | with no user nothing changes; otherwise today's stored mood is loaded, the loop's figures equal the 30-day scan, and they are stored under `stats_<id>` |
| Dashboard.DashboardPage.QuickMoodUpdate | src/pages/Dashboard.tsx:81-112 | with no user nothing changes; otherwise today's mood is always replaced and stored; the figures are patched and stored only when there was no mood yet today |
| Dashboard.DashboardPage.ClearAllData | src/pages/Dashboard.tsx:148-166 | unconfirmed, nothing changes; confirmed, exactly the keys containing the id (every key when there is no id) are removed, today's mood is null and the figures are zero |
| MoodTracker.EntriesKey | src/pages/MoodTracker.tsx:45 | the key is `mood_entries_` followed by the user's id, or by "undefined" without a user |
| MoodTracker.Upsert | src/pages/MoodTracker.tsx:59 | the saved entry is last; the ledger loses the entries of that date and gains one; every entry is the new one or an old one |
| MoodTracker.WithoutDateShape | src/pages/MoodTracker.tsx:59 | the filter removes exactly the entries with that date, keeps every other entry, and shortens the list by their number |
| MoodTracker.UpsertShape | src/pages/MoodTracker.tsx:52-59 | after a save exactly one entry has the date; it is the new entry, at the end; the entries of other dates are the same, in the same order |
| MoodTracker.UpsertKeepsDatesUnique | src/pages/MoodTracker.tsx:59 | a one-entry-per-day ledger stays so; its length is kept when the date was present and grows by one otherwise |
| MoodTracker.RemoveAllShape | src/pages/MoodTracker.tsx:72 | the filter removes that tag and keeps every other tag; an absent tag changes nothing |
| MoodTracker.Toggled | src/pages/MoodTracker.tsx:69-75 | the tag is selected afterwards exactly when it was not selected before |
| MoodTracker.ToggledShape | src/pages/MoodTracker.tsx:69-75 | a toggle flips that tag's membership and no other tag's; toggling twice restores membership, and restores the list when the tag was absent |
| MoodTracker.SumMoodsBounded | src/pages/MoodTracker.tsx:92 | the sum of scores lies between 1 and 10 per entry |
| MoodTracker.AverageTenths | src/pages/MoodTracker.tsx:90-94 | the average is 0 exactly for an empty ledger and otherwise between 1.0 and 10.0 |
| MoodTracker.AverageShape | src/pages/MoodTracker.tsx:90-94 | the average is 0 iff the ledger is empty; otherwise it is the mean score rounded to a tenth, within 1.0..10.0 |
| MoodTracker.InsertByDateShape | src/pages/MoodTracker.tsx:98 | inserting into a newest-first list keeps it newest first and adds exactly that entry |
| MoodTracker.SortByDateDesc | src/pages/MoodTracker.tsx:97-98 | the sorted ledger holds the same entries, with the same multiplicities |
| MoodTracker.SortByDateDescShape | src/pages/MoodTracker.tsx:97-98 | the sort is newest first and a permutation of the ledger |
| MoodTracker.PermutationKeepsDatesUnique | src/pages/MoodTracker.tsx:97-98 | reordering the ledger, as the in-place sort does, keeps one entry per day, and a ledger with a repeated day stays so |
| MoodTracker.Recent | src/pages/MoodTracker.tsx:99 | `slice(0, 7)` is a prefix of at most seven entries, the whole list when it is that short |
| MoodTracker.RecentShape | src/pages/MoodTracker.tsx:96-100 | the recent view holds min(n, 7) entries of the ledger, newest first, none older than an entry it leaves out |
| MoodTracker.StreakShown | src/pages/MoodTracker.tsx:170 | the streak shown is at most 7 and at most the ledger's length, and 0 exactly for an empty ledger |
| MoodTracker.StreakShownIsRecentLength | src/pages/MoodTracker.tsx:170 | the streak shown is min(n, 7), or 0 when empty, which is the size of the recent view |
| MoodTracker.FindByDate | src/pages/MoodTracker.tsx:114 | the found entry is the first entry of the ledger with the date (no earlier entry has it); none is found iff no entry has the date |
| MoodTracker.FindAfterUpsert | src/pages/MoodTracker.tsx:114 | right after a save, the entry found for that date is the one just saved |
| MoodTracker.MoodColor | src/pages/MoodTracker.tsx:83-88 | green exactly from 8 up, red exactly below 4 |
| MoodTracker.MoodIcon | src/pages/MoodTracker.tsx:77-81 | the middle face exactly for scores 4 to 7 |
| MoodTracker.MoodTip | src/pages/MoodTracker.tsx:102-112 | the "feeling great" tip exactly from 8 up, the "tough time" tip exactly below 4 |
| MoodTracker.MoodColorPartition | src/pages/MoodTracker.tsx:83-88 | green iff ≥ 8, yellow iff 6..7, orange iff 4..5, red iff < 4; a higher score never gets a worse colour |
| MoodTracker.ClassifiersAgree | src/pages/MoodTracker.tsx:77-112 | the tip uses the colour's thresholds (≥8, ≥6, ≥4, else); the icon's ≥8 / ≥4 / else merges the two middle colours |
| MoodTracker.MoodTrackerPage.constructor | src/pages/MoodTracker.tsx:25-30 | the page starts on today, slider at 5, empty note, emotions and ledger, form closed |
| MoodTracker.MoodTrackerPage.LoadEntries | src/pages/MoodTracker.tsx:43-49 | the stored ledger under `mood_entries_<id>` is loaded when present, and nothing else changes |
| MoodTracker.MoodTrackerPage.SaveMoodEntry | src/pages/MoodTracker.tsx:51-67 | the ledger becomes the upsert of the form's entry and is stored; one-entry-per-day is kept; note and emotions are emptied and the form closed |
| MoodTracker.MoodTrackerPage.ToggleEmotion | src/pages/MoodTracker.tsx:69-75 | the selected emotions become the toggle of the tag; nothing else changes |
| MoodTracker.MoodTrackerPage.RecentEntries | src/pages/MoodTracker.tsx:96-100 | the page's ledger is sorted newest first in place (a permutation), it has one entry per day after the sort exactly when it had before, and the first seven entries are returned |
| Settings.CheckPasswordIff | src/pages/Settings.tsx:71-79 | accepted iff the fields agree and are at least 6 long; mismatch is reported iff they differ, whatever the length; too short iff they agree and are shorter than 6 |
| Settings.CheckPassword | src/pages/Settings.tsx:71-79 | a mismatch is reported exactly when the two new fields differ; an accepted confirmation is at least six characters long |
| Settings.Label | src/pages/Settings.tsx:361 | a non-empty key gets a non-empty label, and a key starting with a small letter gets a label starting with that letter in capitals |
| Settings.DropSpacesUndoesSpacing | src/pages/Settings.tsx:361 | dropping the spaces the first replace inserted gives back a space-free key |
| Settings.LabelRoundTrip | src/pages/Settings.tsx:361 | a camel-case key is recovered from its label, so distinct keys get distinct labels |
| Settings.SpacedCapitals | src/pages/Settings.tsx:361 | after the first replace every capital follows a space |
| Settings.TwoWordLabel | src/pages/Settings.tsx:361 | a two-word camel-case key is shown as the capitalised first word, a space, and the second word |
| Settings.MoodRemindersLabel | src/pages/Settings.tsx:361 | "moodReminders" is shown as "Mood Reminders" |
| Settings.SettingsPage.constructor | src/pages/Settings.tsx:22-46 | the page starts with no message, not loading, an empty password form and the four default switches |
| Settings.SettingsPage.EditPassword | src/pages/Settings.tsx:306-330 | the password inputs replace the form and nothing else |
| Settings.SettingsPage.HandlePasswordChange | src/pages/Settings.tsx:67-93 | the message is the mismatch one, else the length one, else cleared; only an accepted form starts loading and schedules the change; the fields stay as typed |
| Settings.SettingsPage.CompletePasswordChange | src/pages/Settings.tsx:84-92 | when the timer fires the success message is shown, all three fields are emptied and loading ends |
| Settings.SettingsPage.ToggleNotification | src/pages/Settings.tsx:374 | only the toggled key takes the checkbox value; the other keys and values are unchanged |
| Chatbot.MentionsIff | src/pages/Chatbot.tsx:49 | a chain of `includes` tests succeeds iff some word of the group occurs in the text |
| Chatbot.Greeting | src/pages/Chatbot.tsx:17 | the welcome starts with "Hello " followed by the user's name ("undefined" without a user) |
| Chatbot.TopicOf | src/pages/Chatbot.tsx:47-63 | a chosen topic has one of its words in the lower-cased message, and no group tried before it does |
| Chatbot.GenerateReply | src/pages/Chatbot.tsx:34-66 | the reply is a real topic's or a drawn canned one in range, and it is canned exactly when the message matches no topic |
| Chatbot.TopicOrder | src/pages/Chatbot.tsx:49-63 | a message gets a topic iff a word of that group occurs in the lower-cased message and no word of an earlier group does; unmatched iff no keyword occurs |
| Chatbot.KeywordAnywhere | src/pages/Chatbot.tsx:47-63 | a keyword written in any case, anywhere in the message, decides the topic unless an earlier group's word occurs |
| Chatbot.TopicIgnoresCase | src/pages/Chatbot.tsx:47 | a message and its lower-cased form get the same topic |
| Chatbot.ReplyChoice | src/pages/Chatbot.tsx:35-65 | the drawn canned reply is given iff no keyword matches; a matched message gets its topic's reply whatever the draw |
| Chatbot.ChatbotPage.constructor | src/pages/Chatbot.tsx:14-23 | the chat opens with the one welcome message for the user's name, an empty input and no reply pending |
| Chatbot.ChatbotPage.TypeMessage | src/pages/Chatbot.tsx:191 | typing replaces the input and nothing else |
| Chatbot.ChatbotPage.HandleSendMessage | src/pages/Chatbot.tsx:68-81 | blank input or a pending reply changes nothing; otherwise exactly one user message with the input is appended, the input is cleared and loading starts; loading iff a reply is pending is kept |
| Chatbot.ChatbotPage.CompleteReply | src/pages/Chatbot.tsx:84-93 | exactly one assistant message is appended, holding the reply generated from the text as sent (not the cleared input), and loading ends |

## Left out

- Rendering: all JSX, CSS classes and icons. This covers the pages' markup, `Home`, `Navbar` and `LoadingSpinner`. Routing, `ProtectedRoute` and the theme context are not part of this model.
- Browser effects: the image upload through `FileReader`, the clipboard invite link, the Blob download of `exportData`, `deleteAccount` with `localStorage.clear` and navigation, `scrollIntoView`, and `console.error`.
- `handleProfileUpdate` in Settings only forwards the profile form to `updateProfile` and picks one of two messages from its result. It is not modelled separately.
- `resetPassword` always returns true and is not modelled.
- `getGreeting` (time of day) and the dashboard's `getMoodIcon` are display only.
- Time: `setTimeout` delays are not modelled. Each timer's callback is its own method (`CompletePasswordChange`, `CompleteReply`), and the order in which overlapping timers fire is not modelled.
- Randomness and the clock: ids, tokens, minute draws, the fallback reply index, `Date` values and date strings are parameters.
- The `try`/`catch` paths are not modelled. They catch JSON parse failures, a stored registry that is not a list, and storage write errors. Each of them returns false and keeps the writes already made: a `register` whose token write fails has stored the account but signed nobody in. In the model every storage write succeeds.
- Storage is typed: a key holds a decoded record, not JSON text. A key holding text of the wrong shape is read as absent.
- Floating point: averages are exact tenths rounded half up. JavaScript's `Math.round` and `toFixed` work on binary doubles, and for a few quotients whose decimal half is not exactly representable the shown digit can differ.
- `Dashboard.DashboardPage.Mount`: it takes the 30 date strings as given. That they are 30 distinct consecutive calendar days is not modelled.
- MoodTracker dates: ISO dates are integers. `new Date(...)` parsing and `toISOString` are not modelled.
- Text: case mapping covers ASCII letters only. JavaScript's `toLowerCase` and `toUpperCase` also map other scripts. String length counts code points, not UTF-16 code units.
- `Auth.LoginAcceptedIff`: stated for an email-unique registry. In a registry with duplicates, `login` looks only at the first account matching both email and password. `Auth.AuthProvider.Login` states that rule exactly.
- `MoodTracker.SortByDateDescShape`: states newest-first order and permutation. It does not separately state stability: how equal dates keep their relative order.
- `MoodTracker.AverageShape`: the source returns the number 0 for an empty ledger and the string from `toFixed(1)` otherwise. The model keeps both as tenths, so it does not model the string and number difference.
- Settings' profile form fields, the active tab and the delete confirmation are display state and are not modelled.

## Findings

| source | as written | input that shows it | evidently intended | confidence | as-written member | corrected member |
|---|---|---|---|---|---|---|
| src/contexts/AuthContext.tsx:149-165 | `updateProfile` merges the new email into the user's registry entry without the uniqueness check `register` makes | accounts u1 `a@x.com` and u2 `b@x.com`; u1 submits the profile form with email `b@x.com` | a patch whose email another account holds is refused, so the registry stays email-unique as `register` keeps it | not executed | Auth.UpdateProfileCanDuplicateEmail | Auth.MergeKeepsEmailsUniqueWhenFree |
