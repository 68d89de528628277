# iCare: the preference and lock state machine, client and server

iCare hides the distracting parts of social networks. A signed-in user keeps five
preferences: hide reels, hide stories, hide suggestions, the lock flag and the lock end
time. While a lock is active the settings refuse every change.

This project models two halves of the application:

- **The FastAPI/MongoDB backend.** It covers registration and login, the preferences read
  with default creation, the lock-guarded partial update, the time-saved counter with its
  session log, and the seven-day statistics.
- **The React client.** It covers the authentication and preference contexts over
  `localStorage`, and the pages that read and drive them: the home page, the settings page,
  the network viewing page, the profile page, the sign-in page and the simulated Instagram
  feed.

Modules, one per source file:

| module | source |
|---|---|
| `Models` | `backend/models.py` |
| `Collections` | the three MongoDB collections the routes use |
| `UserRoutes` | `backend/routes/user.py` |
| `AuthRoutes` | `backend/routes/auth.py` |
| `LocalStorage` | the browser's `localStorage` |
| `AuthContext` | `frontend/src/contexts/AuthContext.js` |
| `UserContext` | `frontend/src/contexts/UserContext.js` |
| `SettingsPage` | `frontend/src/pages/Settings.js` |
| `SocialView` | `frontend/src/pages/SocialView.js` |
| `InstagramSimulator` | `frontend/src/components/InstagramSimulator.js` |
| `AuthPage` | `frontend/src/pages/Auth.js` |
| `ProfilePage` | `frontend/src/pages/Profile.js` |
| `HomePage` | `frontend/src/pages/Home.js` |
| `Text` | the JavaScript string and number operations the pages use: `parseInt`, `toString`, `padStart`, `split`, `toUpperCase`, `%` |

How the source becomes Dafny:

- React providers and pages whose state changes become classes with `modifies` clauses.
- The MongoDB database is a `Database` class: `users` and `time_sessions` are sequences in
  insertion order, and `user_preferences` is a map keyed by user id.
- A server call seen from the client is a parameter, `ApiCall`: either the body it returned
  or the exception it threw. The clock (`now`, in milliseconds) is a parameter too.
- Password hashing, password checking and token minting are function parameters.

The code has no synchronisation between the client's `localStorage` preferences and the
server's `user_preferences` collection, and no fallback between them. The two stores are
modelled as the two independent states they are in the code.

## Model

| member | source | states |
|---|---|---|
| Models.Validate | backend/models.py:13-16 | an ObjectId, twelve bytes, or a 24-digit hexadecimal text in either case is accepted, and an accepted text reads back in lower case; any other value fails with "Invalid objectid", except 24-character texts with white space between hex pairs (see "Left out") |
| Models.IdStringRoundTrip | backend/models.py:36-39 | the text form of an id parses back to the same id |
| Models.IdStringInjective | backend/models.py:36-39 | two ids with the same text are the same id |
| Models.ReferralCode | backend/models.py:32 | the referral code is eight upper-case hexadecimal digits |
| Models.NewUser | backend/models.py:23-34 | a new user has no avatar, the free subscription, 0 minutes saved, an 8-character referral code and both timestamps now |
| Models.DefaultUserPreferences | backend/models.py:62-70 | the default preferences: reels and suggestions hidden, stories shown, no lock, no end time |
| Models.TimeSavedBody | backend/models.py:107-109 | a missing platform defaults to "instagram" |
| Models.UserJsonText | backend/models.py:50-59 | the user object sent to the client has snake-case keys only; a camel-case key such as `referralCode` is absent |
| Collections.FindUser | backend/routes/user.py:131 | `find_one` by id: the first matching user, or none when no user has that id |
| Collections.FindEmail | backend/routes/auth.py:17 | `find_one` by e-mail: the first matching user, or none when no user has that address |
| Collections.DefaultPrefsDoc | backend/routes/user.py:18-27 | the preferences document inserted on first read holds the record defaults, every field present |
| Collections.RouteUserId | backend/routes/user.py:95 | the caller's id text is accepted exactly when it is 24 hexadecimal digits; otherwise the route fails with status 500, except 24-character texts with white space between hex pairs (see "Left out") |
| UserRoutes.Upsert | backend/routes/user.py:69-73 | `update_one` with `$set` and `upsert=True`: each field sent overwrites the stored one, every other stored field stays, and a missing document is created from the user id and the sent fields; `UpdateKeepsUnsentFields` and `UpdateReportsSentAndKept` prove this of it |
| UserRoutes.DefaultDocResponse | backend/routes/user.py:18-36 | the defaults document reads back as the default response |
| UserRoutes.GetPreferences | backend/routes/user.py:10-36 | returns the stored preferences; the first time, inserts the defaults and returns them; never touches users or sessions |
| UserRoutes.UpdateData | backend/routes/user.py:56-66 | the `$set` document holds `updated_at` and exactly the request's non-None fields |
| UserRoutes.UpdatePreferences | backend/routes/user.py:38-83 | while the stored lock is live: 403 and nothing written, whatever the request asks; otherwise the sent fields are upserted and the stored record is returned |
| UserRoutes.UpdateReportsSentAndKept | backend/routes/user.py:56-83 | an accepted update reports every sent field as sent, and every other field as stored (or as its default for a new record) |
| UserRoutes.UpdateKeepsUnsentFields | backend/routes/user.py:56-73 | an accepted update keeps every stored field it does not name and refreshes `updated_at` |
| UserRoutes.EmptyUpdateOnlyTouchesTime | backend/routes/user.py:56-73 | an empty request only refreshes `updated_at` |
| UserRoutes.Incremented | backend/routes/user.py:94-97 | `$inc` adds the minutes to `time_saved` (a missing field counts as 0) and changes no other field |
| UserRoutes.NotFoundAsWritten | backend/routes/user.py:99-103 | the route's `modified_count == 0` guard as written: true for an unknown id, and for a known user whose total the `$inc` leaves unchanged; `ZeroMinutesReportedMissing` states when this differs from "no such user" |
| UserRoutes.ZeroMinutesReportedMissing | backend/routes/user.py:94-103 | as written, the `modified_count == 0` guard reports a missing user exactly when there is none for a non-zero increment; for 0 minutes it also reports an existing user with a total as missing |
| UserRoutes.AddTimeSaved | backend/routes/user.py:85-123 | for a known user: the total grows by the minutes, exactly one session is logged, and the new total is returned; for an unknown user: 404 and nothing written |
| UserRoutes.GetUserStats | backend/routes/user.py:125-155 | returns the stored total, the count and the summed minutes of the user's sessions of the last seven days, and the count of all the user's sessions; 404 for an unknown user |
| UserRoutes.WeeklyAtMostTotal | backend/routes/user.py:139-152 | the weekly session count never exceeds the total session count |
| UserRoutes.OtherUsersIgnored | backend/routes/user.py:139-148 | sessions of other users change neither count nor sum |
| UserRoutes.StatsAfterAdd | backend/routes/user.py:94-155 | after adding time, the total and the week's sum grow by the minutes and both session counts grow by one |
| AuthRoutes.StoredUserReadsBack | backend/routes/auth.py:45-90 | a user inserted whole by register reads back at login exactly as register reported it |
| AuthRoutes.ResponseOfDoc | backend/routes/auth.py:80-90 | the `UserResponse` read from a stored document, with "free", 0, an empty code and the current time for a missing subscription, total, code and creation time; `StoredUserReadsBack` proves a document stored by register reads back unchanged |
| AuthRoutes.RegisteredUser | backend/routes/auth.py:25-31 | the registered user has the submitted name and e-mail, the hashed password, the standard bio and the record defaults |
| AuthRoutes.Register | backend/routes/auth.py:11-61 | a taken e-mail is refused and nothing is written; otherwise exactly one user and one default preferences record are inserted, and the user and a token for its id are returned |
| AuthRoutes.RegisteredEmailTaken | backend/routes/auth.py:17-22 | after a registration the e-mail is taken |
| AuthRoutes.Login | backend/routes/auth.py:63-96 | login writes nothing and answers as `LoginOutcome` defines |
| AuthRoutes.LoginOutcome | backend/routes/auth.py:63-96 | the login answer: refused for an unknown e-mail or a wrong password, otherwise success with the stored user and a token minted for its id; `LoginFailureUniform` and `RegisterThenLogin` prove its properties |
| AuthRoutes.LoginFailureUniform | backend/routes/auth.py:69-74 | login succeeds exactly when the e-mail is known and the password checks; an unknown e-mail and a wrong password get the same refusal, with no user and no token |
| AuthRoutes.RegisterThenLogin | backend/routes/auth.py:25-96 | logging in with the registered e-mail and password answers with the registered user and a token for its id |
| AuthRoutes.FindEmailAppended | backend/routes/auth.py:17 | an e-mail not yet stored is found at the position of the user just appended |
| AuthRoutes.GetCurrentUser | backend/routes/auth.py:98-120 | `/me` returns the caller's user with the login defaults, or 404 |
| AuthContext.SessionKeysDiffer | frontend/src/contexts/AuthContext.js:23-24 | the token and the saved user are stored under two different keys |
| AuthContext.OutcomeOf | frontend/src/contexts/AuthContext.js:42-82 | success exactly on a full success (success, a user, a non-empty token); otherwise the server's message, the fallback, or the exception's detail |
| AuthContext.EncodeUser | frontend/src/contexts/AuthContext.js:49 | the saved user is a JSON object text, hence never empty |
| AuthContext.SignedIn | frontend/src/contexts/AuthContext.js:46-50 | the storage after a sign-in call: token and user written on a full success, unchanged otherwise; `SignInStoresSession` proves the stored session passes the next start-up check |
| AuthContext.Purged | frontend/src/contexts/AuthContext.js:84-94 | exactly the token, the saved user and every preference-store key are removed; every other key keeps its value |
| AuthContext.AuthProvider.constructor | frontend/src/contexts/AuthContext.js:15-16 | no user, and loading |
| AuthContext.AuthProvider.CheckAuthStatus | frontend/src/contexts/AuthContext.js:22-40 | the server is asked only when both keys hold a non-empty text; its answer replaces the user, and a failure removes both keys and signs out; loading ends |
| AuthContext.AuthProvider.SignIn | frontend/src/contexts/AuthContext.js:42-61 | on a full success the user is kept and the token and user are stored; otherwise nothing changes |
| AuthContext.AuthProvider.Login | frontend/src/contexts/AuthContext.js:42-61 | `login` resolves to `OutcomeOf` with its fallback and stores the session only on a full success |
| AuthContext.AuthProvider.Register | frontend/src/contexts/AuthContext.js:63-82 | `register` resolves to `OutcomeOf` with its fallback and stores the session only on a full success |
| AuthContext.AuthProvider.Logout | frontend/src/contexts/AuthContext.js:84-94 | the user is dropped and the storage becomes `Purged` of what it was |
| AuthContext.SignInStoresSession | frontend/src/contexts/AuthContext.js:46-50 | a full success stores a session the next start-up check confirms; anything else leaves the storage as it was |
| AuthContext.LogoutEndsSession | frontend/src/contexts/AuthContext.js:84-94 | after logout no session and no preference-store key of any user is left, and a second logout changes nothing |
| LocalStorage.Storage.GetItem | frontend/src/contexts/AuthContext.js:23-24 | `getItem` returns the stored value exactly when the key is present, and null otherwise |
| LocalStorage.Storage.SetItem | frontend/src/contexts/AuthContext.js:48-49 | `setItem` maps the key to the value and keeps every other key |
| LocalStorage.Storage.RemoveItem | frontend/src/contexts/AuthContext.js:86-87 | `removeItem` drops that key and keeps every other key |
| UserContext.Merge | frontend/src/contexts/UserContext.js:40 | `{ ...preferences, ...newPrefs }`: the patch's keys overwrite, every other field stays; `MergeThen` and `MergeNoChangeAndRepeat` prove its algebra |
| UserContext.MergeThen | frontend/src/contexts/UserContext.js:39-45 | two merges in a row are one merge of the combined patch, the later keys winning |
| UserContext.MergeNoChangeAndRepeat | frontend/src/contexts/UserContext.js:39-45 | an empty patch changes nothing, and repeating a merge changes nothing more |
| UserContext.LockExpiry | frontend/src/contexts/UserContext.js:63-66 | the lock is inactive without the flag or an end time, and at or after the end time even though the flag stays true; an active lock was active at every earlier moment |
| UserContext.LockActive | frontend/src/contexts/UserContext.js:63-66 | `isLockModeActive`: the flag on, an end time set and the clock strictly before it; `LockExpiry` and `EnabledLockActiveIff` prove when it holds |
| UserContext.LockEnd | frontend/src/contexts/UserContext.js:55-59 | the end time is now plus the hours; there is none for NaN hours or a time outside the `Date` range |
| UserContext.KeysDistinct | frontend/src/contexts/UserContext.js:27-28 | the preferences key and the time key never coincide |
| UserContext.PrefsRoundTrip | frontend/src/contexts/UserContext.js:31-43 | the stored preferences text parses back to the same preferences |
| UserContext.EncodePrefs | frontend/src/contexts/UserContext.js:43 | `JSON.stringify` of the preferences, a non-empty text; `PrefsRoundTrip` proves `DecodePrefs` reads it back |
| UserContext.DecodePrefs | frontend/src/contexts/UserContext.js:31 | `JSON.parse` of a stored preferences text, none when it does not parse; `PrefsRoundTrip` proves it inverts `EncodePrefs` |
| UserContext.NumberTextReads | frontend/src/contexts/UserContext.js:34-51 | the stored total, NaN included, is read back by `parseInt` as the same number |
| UserContext.AddMinutes | frontend/src/contexts/UserContext.js:47-49 | the total grows by the minutes; NaN stays NaN |
| UserContext.Loaded | frontend/src/contexts/UserContext.js:25-37 | the load fails exactly on a stored preferences text that `DecodePrefs` does not read (other JSON is covered under "Left out"); a missing or empty key keeps its half of the state |
| UserContext.PersistedStateReloads | frontend/src/contexts/UserContext.js:25-53 | what the store wrote for a user is what the next load for that user restores |
| UserContext.UserProvider.constructor | frontend/src/contexts/UserContext.js:16-23 | the default preferences and 0 minutes |
| UserContext.UserProvider.LoadForUser | frontend/src/contexts/UserContext.js:25-37 | with a user, the state becomes `Loaded` from storage; without one, or when parsing throws, nothing changes |
| UserContext.UserProvider.UpdatePreferences | frontend/src/contexts/UserContext.js:39-45 | the preferences become the merge, stored under the user's key when someone is signed in |
| UserContext.UserProvider.AddTimeSaved | frontend/src/contexts/UserContext.js:47-53 | the total grows by the minutes and is stored as text when someone is signed in |
| UserContext.UserProvider.EnableLockMode | frontend/src/contexts/UserContext.js:55-61 | the lock flag and the end time are set, the hide flags kept; it throws (and changes nothing) exactly when there is no end time |
| UserContext.UserProvider.IsLockModeActive | frontend/src/contexts/UserContext.js:63-66 | active exactly when the flag is on, an end time is set, and now is before it |
| UserContext.EnabledLockActiveIff | frontend/src/contexts/UserContext.js:55-66 | a lock just enabled is active exactly when the hours are positive |
| Text.ParseIntRoundTrip | frontend/src/contexts/UserContext.js:34 | `parseInt` reads the text of any integer back as that integer |
| Text.ParseInt | frontend/src/contexts/UserContext.js:34 | `parseInt`: leading white space skipped, an optional sign, the longest run of decimal digits, NaN without a digit; `TrimStartDrops` and `ParseIntRoundTrip` prove its properties |
| Text.TrimStartDrops | frontend/src/pages/Settings.js:182 | `parseInt` skips exactly the leading JavaScript white space, the Unicode space separators included |
| Text.JsRem | frontend/src/pages/SocialView.js:37 | JavaScript's `%` takes the sign of the dividend |
| Text.PadStartPads | frontend/src/pages/SocialView.js:38 | `padStart` puts exactly the missing fill characters before the text |
| Text.PadStart | frontend/src/pages/SocialView.js:38 | `padStart`: the fill repeated before the text up to the width, the text unchanged when already that long; `PadStartPads` states the result |
| Text.JoinSplit | frontend/src/pages/Home.js:32 | joining the pieces of `split` gives back the text |
| Text.SplitTwo | frontend/src/pages/Home.js:32 | two texts without the separator, joined by it, split back into those two |
| Text.Split | frontend/src/pages/Home.js:32 | `split` on one character: at least one piece and no piece holds the separator; `JoinSplit` proves joining the pieces gives the text back and `SplitTwo` that a joined pair splits back into its two texts |
| Text.Upper | frontend/src/pages/Profile.js:64 | `toUpperCase` keeps the length, raises every ASCII lower-case letter and keeps everything else |
| SettingsPage.SingleKey | frontend/src/pages/Settings.js:29 | `{[key]: value}` sets that one preference and nothing else |
| SettingsPage.ChangeLabel | frontend/src/pages/Settings.js:32 | the confirmation starts with the name of the content the switch controls and ends with " masqués" when it is hidden, " affichés" when shown |
| SettingsPage.Labelled | frontend/src/pages/Settings.js:32 | the content's name and a space, then "masqués" when hidden, "affichés" when shown |
| SettingsPage.SettingsPage.constructor | frontend/src/pages/Settings.js:17-18 | two hours proposed, dialog closed |
| SettingsPage.SettingsPage.HandlePreferenceChange | frontend/src/pages/Settings.js:20-34 | while the lock is active: the error toast and no change; otherwise exactly that preference is set and stored |
| SettingsPage.SettingsPage.OpenLockDialog | frontend/src/pages/Settings.js:160 | the lock button opens the dialog only while no lock is active |
| SettingsPage.SettingsPage.HandleLockHoursInput | frontend/src/pages/Settings.js:176-182 | the hour field keeps whatever `parseInt` makes of the text, NaN and out-of-range values included |
| SettingsPage.SettingsPage.HandleEnableLock | frontend/src/pages/Settings.js:36-44 | the lock is enabled for the hours, stored under the signed-in user's preferences key (storage untouched without a user), the dialog closes and the toast shows; when enabling throws, nothing changes |
| SettingsPage.SwitchChangesOnlyItsKey | frontend/src/pages/Settings.js:20-34 | a switch changes its own flag and keeps the other two, the lock and its end time |
| SettingsPage.SwitchKeepsLock | frontend/src/pages/Settings.js:20-34 | a switch cannot start or end a lock |
| SocialView.FindNetwork | frontend/src/pages/SocialView.js:16 | `find` returns a network with that id, or none when the list has none |
| SocialView.PageView | frontend/src/pages/SocialView.js:41-47 | "Réseau social non trouvé" exactly for a platform other than instagram |
| SocialView.ElapsedSeconds | frontend/src/pages/SocialView.js:20 | whole seconds elapsed since the page opened |
| SocialView.ElapsedMonotone | frontend/src/pages/SocialView.js:19-21 | the elapsed count never goes down as the clock goes forward |
| SocialView.CreditedMinutes | frontend/src/pages/SocialView.js:27-28 | three tenths of the whole minutes, rounded down |
| SocialView.DisplayedEstimate | frontend/src/pages/SocialView.js:138 | three tenths of the seconds, in whole minutes |
| SocialView.CreditPositiveIff | frontend/src/pages/SocialView.js:27-31 | something is credited exactly from 240 seconds on |
| SocialView.TenMinutesCreditThree | frontend/src/pages/SocialView.js:27-28 | ten minutes credit three |
| SocialView.CreditAtMostEstimate | frontend/src/pages/SocialView.js:26-33 | the credit never exceeds the estimate shown, and the two differ after 200 seconds |
| SocialView.SixtyFiveSeconds | frontend/src/pages/SocialView.js:35-39 | 65 seconds read "1:05" |
| SocialView.FormatClockReadsBack | frontend/src/pages/SocialView.js:35-39 | the clock text of a non-negative count reads back as that count |
| SocialView.FormatClock | frontend/src/pages/SocialView.js:35-39 | the `m:ss` clock: whole minutes, a colon, the seconds padded to two digits; `SixtyFiveSeconds` and `FormatClockReadsBack` prove its properties |
| SocialView.SocialSession.constructor | frontend/src/pages/SocialView.js:13-14 | no seconds yet, started now |
| SocialView.SocialSession.Tick | frontend/src/pages/SocialView.js:18-21 | the seconds shown become the elapsed seconds |
| SocialView.SocialSession.HandleClose | frontend/src/pages/SocialView.js:26-33 | a positive credit is added to the user's total; the page always returns to "/" |
| InstagramSimulator.RenderPost | frontend/src/components/InstagramSimulator.js:88-100 | a post gives way to the placeholder exactly when it is a reel and reels are hidden |
| InstagramSimulator.RenderFeed | frontend/src/components/InstagramSimulator.js:283-284 | each post of the feed is rendered in place |
| InstagramSimulator.PlaceholdersAreHiddenReels | frontend/src/components/InstagramSimulator.js:88-100 | with reels hidden every reel and nothing else is replaced; with reels shown nothing is |
| InstagramSimulator.CountReels | frontend/src/components/InstagramSimulator.js:85-89 | the number of posts whose `isReel` flag is set; `PlaceholdersAreHiddenReels` proves each hides as one placeholder when reels are hidden |
| InstagramSimulator.RenderStories | frontend/src/components/InstagramSimulator.js:160-178 | the placeholder exactly when stories are hidden, otherwise the four stories |
| InstagramSimulator.RenderSuggestions | frontend/src/components/InstagramSimulator.js:203-206 | nothing at all exactly when suggestions are hidden |
| InstagramSimulator.AnnouncedSavedByPreferences | frontend/src/components/InstagramSimulator.js:88-172 | the placeholders announce thirty seconds per hidden reel and five minutes for hidden stories |
| InstagramSimulator.PostCardState.DisplayedLikes | frontend/src/components/InstagramSimulator.js:148 | the likes shown are one more exactly when liked |
| InstagramSimulator.PostCardState.ToggleLike | frontend/src/components/InstagramSimulator.js:138-140 | a click flips the like |
| InstagramSimulator.Simulator.constructor | frontend/src/components/InstagramSimulator.js:9-27 | the login view with empty fields; the initial 0 is reported |
| InstagramSimulator.Simulator.Tick | frontend/src/components/InstagramSimulator.js:15-27 | the counter grows by one and every count from 0 on is reported once, in order |
| InstagramSimulator.Simulator.SetUsername | frontend/src/components/InstagramSimulator.js:47 | the name field changes alone |
| InstagramSimulator.Simulator.SetPassword | frontend/src/components/InstagramSimulator.js:54 | the password field changes alone |
| InstagramSimulator.Simulator.HandleLogin | frontend/src/components/InstagramSimulator.js:29-34 | any non-empty name and password open the feed; otherwise the view stays |
| AuthPage.RegisterValidation | frontend/src/pages/Auth.js:61-77 | the form passes exactly when the confirmation matches and the password has at least six characters |
| AuthPage.MismatchReportedFirst | frontend/src/pages/Auth.js:61-77 | a short unconfirmed password gets the mismatch message |
| AuthPage.AuthPageState.constructor | frontend/src/pages/Auth.js:20-27 | the demo account prefilled, an empty registration form, not loading |
| AuthPage.AuthPageState.HandleLogin | frontend/src/pages/Auth.js:36-56 | the form's credentials are sent, loading is set during the call only, the signed-in user becomes the returned user exactly on a full success and stays otherwise, the context's own loading flag and every other form field are kept, and the toast is destructive exactly on a failure |
| AuthPage.AuthPageState.HandleRegister | frontend/src/pages/Auth.js:58-101 | a failed check shows its error and sends nothing; otherwise the name, e-mail and password are sent, the session is stored and the signed-in user becomes the returned user on a full success, and stays otherwise; the context's loading flag and the login fields are kept |
| ProfilePage.DaysOfMinutes | frontend/src/pages/Profile.js:32-33 | whole days of whole hours are whole days of minutes |
| ProfilePage.FormatDurationRegimes | frontend/src/pages/Profile.js:31-41 | days and hours from 1440 minutes, hours and minutes from 60, minutes below |
| ProfilePage.FormatDuration | frontend/src/pages/Profile.js:31-41 | the profile's total: days and hours, hours and minutes, or minutes; `FormatDurationRegimes` and `DaysFormDropsUnderAnHour` prove which form and what it keeps |
| ProfilePage.DaysFormDropsUnderAnHour | frontend/src/pages/Profile.js:31-41 | the days form accounts for the total to within the hour |
| ProfilePage.Initials | frontend/src/pages/Profile.js:63-65 | never empty and never lower case; "U" without a name |
| ProfilePage.TwoWordInitials | frontend/src/pages/Profile.js:63-65 | a first and a last name give their two capitals; an empty name gives "U" |
| ProfilePage.SessionsProtected | frontend/src/pages/Profile.js:137 | one session per whole quarter hour |
| ProfilePage.WeeklyEstimate | frontend/src/pages/Profile.js:127 | 15 % of the total, rounded down |
| ProfilePage.AchievementProgress | frontend/src/pages/Profile.js:246-247 | the share of a day, in whole percent, below 100 while locked |
| ProfilePage.SubscriptionBadge | frontend/src/pages/Profile.js:67-81 | "Super iCare" exactly for a premium subscription |
| ProfilePage.ShowUpgrade | frontend/src/pages/Profile.js:183 | the upgrade button shows exactly for a free subscription |
| ProfilePage.BadgeAndUpgradeExclusive | frontend/src/pages/Profile.js:67-81 | the premium badge and the upgrade button never show together |
| ProfilePage.ReferralAlwaysDemo | frontend/src/pages/Profile.js:166 | as written, every user is shown the demo code |
| ProfilePage.ReferralCodeShown | frontend/src/pages/Profile.js:166 | the user's own code, or the demo code when there is none |
| ProfilePage.RegisteredUserSeesOwnCode | frontend/src/pages/Profile.js:166 | a freshly registered user sees its own code |
| HomePage.TimeSavedText | frontend/src/pages/Home.js:43 | a NaN total prints "NaNmin" |
| HomePage.FormatTimeForms | frontend/src/pages/Home.js:14-21 | hours and minutes from 60 minutes on, minutes below; no day unit (1500 minutes is "25h 0min") |
| HomePage.FormatTimeReadsBack | frontend/src/pages/Home.js:14-21 | the text of a non-negative total reads back as that total |
| HomePage.FormatTime | frontend/src/pages/Home.js:14-21 | the home page's total: hours and minutes from an hour on, minutes below; `FormatTimeForms` and `FormatTimeReadsBack` prove its properties |
| HomePage.AgreesWithProfileBelowADay | frontend/src/pages/Home.js:14-21 | below a day the home page and the profile show the same text; from a day on they differ |
| HomePage.FirstName | frontend/src/pages/Home.js:32 | the name up to its first space; nothing without a user |
| HomePage.Greeting | frontend/src/pages/Home.js:32 | the greeting starts with "Bonjour " |
| HomePage.GreetsByFirstName | frontend/src/pages/Home.js:32 | a first and a last name greet by the first |
| HomePage.LockBanner | frontend/src/pages/Home.js:54-62 | the banner shows exactly while the lock is active, with its end time |
| HomePage.Indicators | frontend/src/pages/Home.js:99-113 | each dot is green exactly when its content is hidden |
| HomePage.GreenMeansHidden | frontend/src/pages/Home.js:99-113 | a green dot means the feed really hides that block |

## Left out

- Password hashing, password checking and JWT minting are parameters; `get_current_user_id` (token decoding) is not part of this model, and the caller's id arrives as text.
- Models.Validate: `bytes.fromhex` skips ASCII white space between hex pairs. So a 24-character text such as `00112233445566778899aa` followed by two spaces passes `ObjectId.is_valid` and builds a shorter id. The model refuses any text that is not 24 hexadecimal digits.
- Collections.RouteUserId: for the same reason `ObjectId(current_user_id)` accepts a 24-character text with white space between hex pairs, and the route then looks up an id no user has. The model answers 500 for such a text. Ids in tokens the server mints are always 24 hexadecimal digits.
- Timestamps are integer milliseconds. ISO 8601 texts, `datetime.utcnow()` and `toLocaleTimeString` formatting are not modelled.
- JavaScript numbers are integers or NaN (`Option<int>`). Floating-point products (`* 0.3`, `* 0.15`, `/ 1440 * 100`) are exact rationals. For `* 0.3` and `* 0.15`, and for `/ 1440 * 100` below 1440 minutes (the only totals the profile shows as a percentage), the floor of the IEEE result equals the floor of the exact one. From 1440 minutes on `/ 1440 * 100` can round below an integer (1656 gives 114, not 115), but the page shows "✓" there instead of the percentage.
- ProfilePage.FormatDuration: takes an integer only; for a NaN total the profile prints "NaNmin" through its `formatTime` (Profile.js:106), which is not modelled.
- ProfilePage.SessionsProtected: takes an integer only; for a NaN total `Math.floor(NaN / 15)` prints "NaN" (Profile.js:137), which is not modelled.
- ProfilePage.WeeklyEstimate: takes an integer only; for a NaN total the weekly card prints "+NaNmin" (Profile.js:127), which is not modelled.
- ProfilePage.AchievementProgress: takes an integer only; for a NaN total the badge reads "NaN%" (Profile.js:246-247), which is not modelled.
- UserContext.DecodePrefs: reads only the layout `JSON.stringify` writes for preferences, and `UserContext.Loaded` counts any other stored text as a parse failure that leaves the state as it was. In JavaScript any valid JSON parses and replaces the whole preferences object (UserContext.js:30-31). That includes the same object in another layout, a partial object such as `{"hideReels":false}` (the other fields then become undefined), and `null`. The model does not cover those loads. JSON string escaping is not modelled either.
- `toUpperCase` raises ASCII letters only, and `.length` counts characters, not UTF-16 units.
- React scheduling is not modelled: timers, effect ordering, stale closures, and the `InstagramPost` component being redefined at each render (which resets its like state).
- The 401 interceptor of `frontend/src/services/api.js` and the routing of `frontend/src/App.js` and `Navigation.js` are not part of this model.
- The profile's days-active counter, the share and clipboard actions, and the theme toggle are display-only and are not modelled.
- FastAPI's 422 answer to a malformed request body is not modelled: bodies arrive already parsed.
- Concurrent requests are not modelled: each route runs alone against the database.
- MongoDB's `$inc` overflow past 64 bits is not modelled.

## Findings

| source | as written | input that shows it | evidently intended | confidence | as-written member | corrected member |
|---|---|---|---|---|---|---|
| frontend/src/pages/Profile.js:166 | the code shown is read under the camel-case key `referralCode`, with `DEMO2024` as fallback; the server sends `referral_code` | any signed-in user, e.g. one with code `A1B2C3D4` | show and copy the user's own referral code | not executed; high, since the key names are fixed by the model declarations | ProfilePage.ReferralAlwaysDemo | ProfilePage.ReferralCodeShown |
| backend/routes/user.py:99 | `modified_count == 0` is taken to mean "user not found" | an existing user with `time_saved` 5 posting `minutes = 0` | answer 404 only when no user has the id | not executed; medium, since it relies on MongoDB counting a `$inc` by 0 as no modification | UserRoutes.ZeroMinutesReportedMissing | UserRoutes.AddTimeSaved |
