# MorningRise front end — a Dafny model

MorningRise is a React single-page application for a morning routine. It has:

- a public landing page with sign-in and sign-up modals;
- a signed-in shell with a sidebar;
- a dashboard: checklist, mood, intention, sleep and streak;
- a modal for entering the night's sleep;
- a weekly review: charts, mood calendar, milestones and tips;
- a settings screen.

This project models how those screens behave.

- **Screen state.** Each screen's state hooks become the fields of a Dafny `class`, and each event handler becomes a `method` on it. Every method states the whole new state: every field of the screen and the storage it may change.
- **Pure view logic.** Chart projection, classifiers, input filtering and string helpers become functions and lemmas.
- **Browser storage.** `localStorage` is a `LocalStorage` object holding a map from key to item (module `Session`). The session lives under the keys `"token"` and `"user"`. A stored user object is kept as the record it encodes, so `JSON.stringify` and `JSON.parse` of a user are the identity. Any other non-empty text under `"user"` stands for text on which `JSON.parse` throws.
- **Network.** Every `fetch` answer is a parameter of the handler that awaits it: the `Reply` datatype. A reply is either a network failure with the thrown message, or a response with a status and a body. The body is either decoded JSON or the message of the parse error. So each handler is proved for every answer the backend could give.
- **Numbers.** JavaScript numbers are exact reals, plus `NaN` where `parseFloat` can produce it. Turning a number into text (template literals) and `Number(text)` are parameters `show` and `read`.

The main results:

- **Weekly review charts.**
  - Each chart has `max(7, n)` points for `n` fetched days.
  - Days keep their own y at x = (300/7)·i.
  - Padding points repeat the last y, 50 further right each time.
  - Consistency y is one of 100, 200/3, 100/3 and 0.
  - Sleep y lies in [20, 80]. It is 80 up to 6 hours and 20 from 12 hours on.
  - The chart text parses back to the same points whenever each coordinate's rendering holds no space or comma and `Number` reads it back (`SeriesTextRoundTrip`).
- **Milestones.** The milestone emoji is decided by its last matching test, but the note below it by its first. So "Hydration Streak" gets the hydration emoji and the streak note.
- **Sleep modal.**
  - The input filter accepts exactly strings of digits with at most one point.
  - Validation rejects in the source's order: total first, then deep sleep, then REM.
  - When the total and every filled stage read as numbers (blank stages allowed), validation passes exactly for a filled, non-negative total that no filled stage exceeds. A typed "0" is filled, so a zero total is sent.
  - A total of "." passes and sends NaN.
- **Dashboard.**
  - A checklist toggle flips one key and is reverted on every failure path except a missing token.
  - Mood index and server value round-trip.
  - The sleep summary and the history tiles use the same 7/6 thresholds. A zero total is "No data" in the summary but a Poor tile.
- **Settings.**
  - A switch whose request returns an error status is set back to its prior value, because every call site passes the negation of the current value. A network failure leaves the new value in place.
  - Other fields are kept by every update.
  - A profile save replaces only the stored name.
- **401 handling.** For an HTTP status, the "mentions 401" wipe of all storage can never fire. The status message mentions "401" only for status 401, which is handled before it.

The code is followed where its own comment disagrees: the sleep-chart comment says 10 hours maps to 20, but the formula gives 40 (`SleepYSamples`).

## Model

| member | source | states |
|---|---|---|
| Common.TextField | src/pages/Operations/main_layout.jsx:52 | `record?.[key]` is truthy exactly when the record has a non-empty text under the key, and then it is that text |
| Strings.Split | src/pages/Operations/weekly_review.jsx:291-292 | `split` on one character gives at least one part and no part contains the separator |
| Strings.SplitJoin | src/pages/Operations/weekly_review.jsx:291-292 | splitting what was joined gives back the parts when none contains the separator |
| Strings.JoinSplit | src/pages/Operations/weekly_review.jsx:147 | joining the parts of a split gives back the string |
| Strings.BeforeFirst | src/pages/Operations/main_layout.jsx:64 | `split(sep)[0]` is a prefix without the separator that is either all of the string or followed by the separator |
| Strings.BeforeFirstOf | src/pages/Operations/main_layout.jsx:238 | for `p + sep + t` with no separator in `p`, the first part is `p` |
| Strings.ContainsIffOccurs | src/pages/Operations/weekly_review.jsx:322-325 | `includes` holds exactly when the text occurs at some position |
| Strings.TrimEmptyIffBlank | src/pages/Operations/dashboard.jsx:177 | `trim()` gives "" exactly when every character is whitespace |
| Strings.ToUpper | src/pages/Operations/main_layout.jsx:57 | upper-casing keeps the length and maps each character |
| Session.WithoutSession | src/pages/Operations/main_layout.jsx:44-47 | removing the session takes out token and user, keeps every other key and adds none |
| Session.WithSession | src/pages/landing_page.jsx:26-28 | storing a session sets the user object and the token and keeps every other key |
| Session.SessionLifecycle | src/pages/landing_page.jsx:16-53 | a sign-in with a token passes the mount check; after clearing it fails; clearing undoes a sign-in entirely |
| Session.ParsedStoredUser | src/pages/Operations/settings.jsx:128 | an absent or empty stored user parses as {}, a stored object as itself, other text makes `JSON.parse` throw |
| Session.ThreeDigitNumeral | src/pages/Operations/weekly_review.jsx:42 | a status from 100 to 999 shows as three digits, which read "401" exactly for 401 |
| Session.OccurrenceAfterPrefix | src/pages/Operations/weekly_review.jsx:42-50 | after a prefix holding no '4', "401" can occur only as the three characters right after the prefix |
| Session.StatusMessageMentions401 | src/pages/Operations/weekly_review.jsx:41-53 | for a status from 100 to 999, "HTTP error! status: N" mentions "401" exactly when N is 401 |
| Session.HasToken | src/pages/Operations/dashboard.jsx:33-38 | the token check is truthiness of the stored token |
| Session.ClearSession | src/pages/Operations/settings.jsx:306-309 | removing token and user leaves the storage without the session |
| Session.StoreSession | src/pages/landing_page.jsx:34-38 | the sign-up storage writes give the storage with the session |
| WeeklyReview.CompletedTasks | src/pages/Operations/weekly_review.jsx:135 | the number of done tasks is at most 3; it is 3 for a perfect day and 0 for an empty one |
| WeeklyReview.ConsistencyLevels | src/pages/Operations/weekly_review.jsx:133-138 | a day's y is 100, 200/3, 100/3 or 0; 0 exactly when all three tasks are done and 100 exactly when none is |
| WeeklyReview.SleepYBounds | src/pages/Operations/weekly_review.jsx:159-165 | sleep y is in [20, 80]; a missing total gives 80; 80 exactly up to 6 h; 20 exactly from 12 h; 140 − 10h in between |
| WeeklyReview.SleepYSamples | src/pages/Operations/weekly_review.jsx:161-163 | 4 h gives 80, 7 h gives 70 and 10 h gives 40 (the comment's "10h = 20" does not hold) |
| WeeklyReview.PadToWeek | src/pages/Operations/weekly_review.jsx:141-145 | padding gives max(7, n) points, keeps the given ones as a prefix, and each added point repeats the previous y 50 further right |
| WeeklyReview.PaddingRepeatsLast | src/pages/Operations/weekly_review.jsx:142-144 | the k-th padding point has the last real point's y and lies k·50 to its right; with no real point it is (50k, 50) |
| WeeklyReview.ConsistencyValues | src/pages/Operations/weekly_review.jsx:133-138 | one y per checklist day, in order |
| WeeklyReview.SleepValues | src/pages/Operations/weekly_review.jsx:159-165 | one y per sleep day, in order |
| WeeklyReview.ConsistencyPoints | src/pages/Operations/weekly_review.jsx:130-145 | the point list is the chart series of the days' consistency values |
| WeeklyReview.SleepPoints | src/pages/Operations/weekly_review.jsx:156-170 | the point list is the chart series of the days' sleep values |
| WeeklyReview.SeriesWithin | src/pages/Operations/weekly_review.jsx:141-145 | padding adds no y outside the range of the fetched values |
| WeeklyReview.ConsistencySeriesProperties | src/pages/Operations/weekly_review.jsx:130-147 | the consistency chart has max(7, n) points, every y in [0, 100], padding at the last day's y |
| WeeklyReview.SleepSeriesProperties | src/pages/Operations/weekly_review.jsx:156-172 | the sleep chart has max(7, n) points, every y in [20, 80], padding at the last day's y |
| WeeklyReview.PointTexts | src/pages/Operations/weekly_review.jsx:147 | one `x,y` text per point |
| WeeklyReview.PointTextsParse | src/pages/Operations/weekly_review.jsx:292 | when each coordinate renders without space or comma and reads back, each `x,y` text holds no space and reads back as its point |
| WeeklyReview.SeriesTextRoundTrip | src/pages/Operations/weekly_review.jsx:291-292 | under the same condition on the series' own coordinates, splitting the chart text on spaces and commas gives back every point in order |
| WeeklyReview.DigitRenderingRoundTrip | src/pages/Operations/weekly_review.jsx:291-292 | a rendering writing 0 and 1 as digits meets that condition, and the text of (0, 1) (1, 0) parses back to those points |
| WeeklyReview.ConsistencyChartText | src/pages/Operations/weekly_review.jsx:125-148 | without checklist data the placeholder text, otherwise the text of the consistency series |
| WeeklyReview.SleepChartText | src/pages/Operations/weekly_review.jsx:151-173 | without sleep data the placeholder text, otherwise the text of the sleep series |
| WeeklyReview.MoodGlyph | src/pages/Operations/weekly_review.jsx:181-189 | the glyph is neutral exactly for a missing, null or out-of-range mood or mood 3, and is always one of the five |
| WeeklyReview.MoodEmojis | src/pages/Operations/weekly_review.jsx:176-197 | exactly 7 glyphs: each day's glyph, then neutral; the fixed default list without mood data |
| WeeklyReview.MilestoneEmoji | src/pages/Operations/weekly_review.jsx:322-325 | the last matching test decides: Zen or meditation, else Hydration, else Streak, else the trophy |
| WeeklyReview.MilestoneNote | src/pages/Operations/weekly_review.jsx:331-333 | the first matching test decides: Streak, else Hydration, else mindfulness |
| WeeklyReview.EmojiAndNoteDisagree | src/pages/Operations/weekly_review.jsx:322-333 | "Hydration Streak" gets the hydration emoji and the streak note |
| WeeklyReview.MilestoneCards | src/pages/Operations/weekly_review.jsx:320-352 | one card per milestone with its emoji and note, or the three placeholder cards |
| WeeklyReview.Count | src/pages/Operations/weekly_review.jsx:426 | a filter's length never exceeds the list's |
| WeeklyReview.CountDisjoint | src/pages/Operations/weekly_review.jsx:426-428 | two tests no entry passes together count at most the list's length between them |
| WeeklyReview.CountUniform | src/pages/Operations/weekly_review.jsx:426 | a filter over one repeated entry keeps all of them or none |
| WeeklyReview.MoodMessage | src/pages/Operations/weekly_review.jsx:424-436 | five or more good days gives the great message, else three or more low days the tough one, else the stable one; a `null` mood counts as good and a missing one as neither; the prompt without moods |
| WeeklyReview.MoodTestsExclusiveInAWeek | src/pages/Operations/weekly_review.jsx:426-428 | in a week of at most 7 entries the two mood tests never both hold |
| WeeklyReview.NullMoodsCountAsGood | src/pages/Operations/weekly_review.jsx:426-430 | five `null` moods give the great-week message, five missing ones the stable one |
| WeeklyReview.PerfectDaysBound | src/pages/Operations/weekly_review.jsx:457-459 | perfect days are at most the checklist days and are exactly the days whose chart y is 0 |
| WeeklyReview.ConsistencyTip | src/pages/Operations/weekly_review.jsx:501-505 | the tip by consistency: at least 80, at least 60, or below (or missing) |
| WeeklyReview.SleepTip | src/pages/Operations/weekly_review.jsx:517-521 | the tip by average sleep: at least 8, at least 7, or below (or missing) |
| WeeklyReview.WeeklyReviewView.constructor | src/pages/Operations/weekly_review.jsx:5-7 | no data, loading, not generating |
| WeeklyReview.WeeklyReviewView.FetchWeeklyData | src/pages/Operations/weekly_review.jsx:15-57 | no token: nothing fetched; 401: session removed; failure mentioning "401": storage cleared; decoded: data replaced; loading ends |
| WeeklyReview.WeeklyReviewView.GenerateReport | src/pages/Operations/weekly_review.jsx:59-100 | no token: nothing changes; 401 removes the session; a failed report changes nothing else; a decoded report refreshes data and storage exactly as `FetchWeeklyData` does with the refresh reply; the button is enabled again in every case |
| SleepInput.LeadingDigits | src/components/SleepInputModal.jsx:15 | the longest all-digit prefix |
| SleepInput.DecimalPatternMeaning | src/components/SleepInputModal.jsx:15 | the filter accepts exactly strings of digits and points with at most one point |
| SleepInput.NoDotAllDigits | src/components/SleepInputModal.jsx:15 | text of digits and points has no point exactly when it is all digits |
| SleepInput.ParseFloat | src/components/SleepInputModal.jsx:28 | `parseFloat` of a digit-and-point prefix is never negative |
| SleepInput.ParseFilteredText | src/components/SleepInputModal.jsx:28-48 | on filtered text only "" and "." read as NaN, and no value reads below 0 |
| SleepInput.ParseSamples | src/components/SleepInputModal.jsx:46 | "7.5" reads 7.5, "5." reads 5, "." reads NaN |
| SleepInput.InitialEntry | src/components/SleepInputModal.jsx:4-8 | a field starts filled exactly when `currentData` has a truthy value, and as "" otherwise |
| SleepInput.ValidationError | src/components/SleepInputModal.jsx:27-41 | the first failing check names the error: total, then deep, then REM |
| SleepInput.ValidationMeaning | src/components/SleepInputModal.jsx:27-41 | when the total and every filled stage read as numbers, blank stages allowed, validation passes exactly for a filled non-negative total that no filled stage exceeds |
| SleepInput.BlankStagesAccepted | src/components/SleepInputModal.jsx:27-49 | a total of "7" with both stages blank passes and sends 7 with null stages |
| SleepInput.ZeroTotalAccepted | src/components/SleepInputModal.jsx:27-49 | a typed total of "0" passes every check and is sent as 0 |
| SleepInput.PointAloneIsAccepted | src/components/SleepInputModal.jsx:28-46 | a total of "." passes every check and the payload's total is NaN |
| SleepInput.BuildPayload | src/components/SleepInputModal.jsx:45-49 | the total is parsed; each stage is null when empty and parsed otherwise |
| SleepInput.AcceptedPayloadRespectsTotal | src/components/SleepInputModal.jsx:27-49 | an accepted payload has no negative total and no stage above the total |
| SleepInput.SleepInputModal.constructor | src/components/SleepInputModal.jsx:4-10 | fields from `currentData` with "" for falsy values; no error, not loading |
| SleepInput.SleepInputModal.HandleChange | src/components/SleepInputModal.jsx:12-21 | an edit the filter accepts replaces the named field only; a rejected one changes nothing |
| SleepInput.SleepInputModal.HandleSubmit | src/components/SleepInputModal.jsx:23-56 | on a validation error: that message, no save; otherwise the payload is sent, the modal closes on success and shows the thrown message or fallback on failure; with every field filtered, a sent total is NaN exactly when the total is "." |
| Dashboard.ChecklistExtensional | src/pages/Operations/dashboard.jsx:6-10 | checklists that agree on every key are equal |
| Dashboard.Toggle | src/pages/Operations/dashboard.jsx:107 | exactly the named key flips |
| Dashboard.ToggleInvolution | src/pages/Operations/dashboard.jsx:106-108 | toggling twice restores the checklist; toggles of different keys commute |
| Dashboard.MoodIndex | src/pages/Operations/dashboard.jsx:59 | sending the stored index gives back the server mood |
| Dashboard.MoodCaption | src/pages/Operations/dashboard.jsx:548-550 | the prompt for no mood, the mood's word for an index in 0..4, "undefined" otherwise |
| Dashboard.MoodLoadThenSend | src/pages/Operations/dashboard.jsx:58-60 | a server mood 1..5 loads to an index in range whose caption names it, and is sent back unchanged |
| Dashboard.MoodSendThenLoad | src/pages/Operations/dashboard.jsx:149 | an index sent and loaded back is the same index |
| Dashboard.QualityOf | src/pages/Operations/dashboard.jsx:257-259 | Good from 7 h, Fair from 6 h, Poor below |
| Dashboard.SleepQuality | src/pages/Operations/dashboard.jsx:255-260 | "No data" exactly for a falsy value, then Good/Fair/Poor at 7 and 6 hours |
| Dashboard.SleepQualityMonotone | src/pages/Operations/dashboard.jsx:255-260 | more sleep never gives a worse label |
| Dashboard.FormatSleepHours | src/pages/Operations/dashboard.jsx:249-252 | "0h" for a falsy value, otherwise the number followed by "h" |
| Dashboard.RecentSleep | src/pages/Operations/dashboard.jsx:443-457 | at most the first 5 days, each with its tier |
| Dashboard.TilesAgreeWithSummary | src/pages/Operations/dashboard.jsx:448-457 | a tile with a truthy total has the summary's tier; a zero or missing total is Poor while the summary says "No data" |
| Dashboard.StreakTier | src/pages/Operations/dashboard.jsx:521-524 | the tier t satisfies 7t ≤ streak (t > 0) and streak < 7(t+1) (t < 3) |
| Dashboard.StreakLabel | src/pages/Operations/dashboard.jsx:521-524 | the label for at least 21, 14, 7 days, and "7 Day Streak" below |
| Dashboard.StreakTierMonotone | src/pages/Operations/dashboard.jsx:521-524 | a longer streak never has a lower tier |
| Dashboard.GreetingName | src/pages/Operations/dashboard.jsx:276 | the first word of the user's name, or "Alex" when that is empty or missing |
| Dashboard.GreetingOfOneWord | src/pages/Operations/dashboard.jsx:276 | a one-word name is greeted in full |
| Dashboard.GreetingOfLeadingSpace | src/pages/Operations/dashboard.jsx:276 | a name starting with a space is greeted as "Alex" |
| Dashboard.DashboardView.constructor | src/pages/Operations/dashboard.jsx:6-28 | the initial state and the stored user read on mount |
| Dashboard.DashboardView.FetchDashboardData | src/pages/Operations/dashboard.jsx:30-75 | fields present in a decoded reply replace the shown ones (mood as m − 1); all others are kept; loading ends |
| Dashboard.DashboardView.ToggleChecklist | src/pages/Operations/dashboard.jsx:106-146 | toggled without a token or on a stored save; reverted on a failed save or refresh; streak from a decoded refresh |
| Dashboard.DashboardView.MoodChange | src/pages/Operations/dashboard.jsx:148-174 | the index is shown and never rolled back; with a token index + 1 is sent |
| Dashboard.DashboardView.IntentionSave | src/pages/Operations/dashboard.jsx:176-207 | a blank intention sends nothing and changes nothing; else with a token it is sent and the alert follows the status |
| Dashboard.DashboardView.FetchSleepHistory | src/pages/Operations/dashboard.jsx:78-98 | a decoded reply replaces the history ([] when absent); others keep it |
| Dashboard.DashboardView.SaveSleepData | src/pages/Operations/dashboard.jsx:210-246 | without a token returns normally; a failed save is rethrown with its message; a saved record replaces the summary and the history is fetched again |
| MainLayout.PageFor | src/pages/Operations/main_layout.jsx:26-37 | "weeklyReview" and "settings" select their page; every other value the dashboard |
| MainLayout.NavValuesSelectTheirPage | src/pages/Operations/main_layout.jsx:131-177 | each sidebar button's value selects its own page |
| MainLayout.FirstLetters | src/pages/Operations/main_layout.jsx:55-56 | at most one letter per word |
| MainLayout.WordStarts | src/pages/Operations/main_layout.jsx:53-56 | the characters that begin a word hold no space |
| MainLayout.FirstLettersAreWordStarts | src/pages/Operations/main_layout.jsx:53-56 | the first letters of the space-separated words are exactly the word-starting characters, in order |
| MainLayout.UserInitials | src/pages/Operations/main_layout.jsx:51-59 | "U" without a name; at most 2 characters and none lower-case |
| MainLayout.InitialsAreFirstWordStarts | src/pages/Operations/main_layout.jsx:53-58 | the initials are the upper-cased starts of the first two words |
| MainLayout.UserFirstName | src/pages/Operations/main_layout.jsx:62-65 | "User" without a name, otherwise the text before the first space |
| MainLayout.MaskedEmail | src/pages/Operations/main_layout.jsx:238 | the text before the first "@" followed by "@...", or the sign-in prompt |
| MainLayout.MaskedEmailHidesDomain | src/pages/Operations/main_layout.jsx:238 | `local@domain` shows as `local@...` |
| MainLayout.MainLayoutView.constructor | src/pages/Operations/main_layout.jsx:7-24 | the dashboard page, sidebar closed, the stored user (a malformed one ignored), loading done |
| MainLayout.MainLayoutView.HandleNavClick | src/pages/Operations/main_layout.jsx:39-42 | the page changes and the sidebar closes |
| MainLayout.MainLayoutView.ToggleSidebar | src/pages/Operations/main_layout.jsx:80 | the sidebar flag flips |
| MainLayout.MainLayoutView.HandleLogout | src/pages/Operations/main_layout.jsx:44-48 | token and user removed; the session check then fails |
| SettingsPage.WithNotification | src/pages/Operations/settings.jsx:152-155 | the named switch takes the value; every other field is kept |
| SettingsPage.SettingsExtensional | src/pages/Operations/settings.jsx:8-14 | records equal on every field are equal |
| SettingsPage.RevertRestoresSwitch | src/pages/Operations/settings.jsx:166-171 | with `enabled = !settings[type]`, the revert restores the prior settings |
| SettingsPage.WithProfileField | src/pages/Operations/settings.jsx:83-88 | only the named form field changes |
| SettingsPage.ProfileEditsIndependent | src/pages/Operations/settings.jsx:83-88 | writing the old value back undoes an edit; edits of different fields commute |
| SettingsPage.TextOrEmpty | src/pages/Operations/settings.jsx:67-71 | the field's text, or "" when it is missing or falsy |
| SettingsPage.ProfileRequestOf | src/pages/Operations/settings.jsx:106-109 | the body holds the form's name and phone |
| SettingsPage.ProfileRequestIgnoresEmail | src/pages/Operations/settings.jsx:106-109 | the email never reaches the request |
| SettingsPage.RenamedStoredUser | src/pages/Operations/settings.jsx:128-130 | the stored user gets the new name and keeps every other field; None when it does not parse |
| SettingsPage.SettingsView.constructor | src/pages/Operations/settings.jsx:5-22 | default settings, empty form, loading |
| SettingsPage.SettingsView.FetchSettings | src/pages/Operations/settings.jsx:30-81 | no token: nothing; 401: session removed; failure mentioning "401": storage cleared; decoded: state replaced and form filled with "" fallbacks |
| SettingsPage.SettingsView.ProfileChange | src/pages/Operations/settings.jsx:83-88 | the form gets the edit |
| SettingsPage.SettingsView.SaveProfile | src/pages/Operations/settings.jsx:90-142 | sends name and phone; 401 removes the session; on success the stored and shown user get only the new name |
| SettingsPage.SettingsView.NotificationToggle | src/pages/Operations/settings.jsx:144-179 | no token: nothing; the switch takes `enabled`, and `!enabled` on an error status; a network failure keeps it; when `enabled` is the negation of the current value, an error status leaves the settings as they were |
| SettingsPage.SettingsView.ThemeChange | src/pages/Operations/settings.jsx:181-220 | sends the prior settings with the new colour; the prior colour returns on an error status |
| SettingsPage.SettingsView.InterfaceModeChange | src/pages/Operations/settings.jsx:222-261 | sends the prior settings with the new mode; the prior mode returns on an error status |
| SettingsPage.SettingsView.SaveSettings | src/pages/Operations/settings.jsx:263-304 | sends the settings; 401 removes the session; the alert follows the outcome |
| SettingsPage.SettingsView.Logout | src/pages/Operations/settings.jsx:306-310 | token and user removed |
| Landing.EmptyTokenNotRemembered | src/pages/landing_page.jsx:16-32 | a sign-in with an empty token is not seen as signed in by the next mount check; any other token is |
| Landing.LandingView.constructor | src/pages/landing_page.jsx:9-24 | signed in exactly when user and token are both stored; loading ends either way |
| Landing.LandingView.OpenSignIn | src/pages/landing_page.jsx:79 | the sign-in modal opens |
| Landing.LandingView.OpenSignUp | src/pages/landing_page.jsx:108 | the sign-up modal opens |
| Landing.LandingView.CloseSignIn | src/pages/landing_page.jsx:322 | the sign-in modal closes |
| Landing.LandingView.CloseSignUp | src/pages/landing_page.jsx:333 | the sign-up modal closes |
| Landing.LandingView.SwitchToSignUp | src/pages/landing_page.jsx:323-326 | only the sign-up modal is open afterwards |
| Landing.LandingView.SwitchToSignIn | src/pages/landing_page.jsx:334-337 | only the sign-in modal is open afterwards |
| Landing.LandingView.SignInSuccess | src/pages/landing_page.jsx:26-32 | user and token stored together, signed in, sign-in modal closed |
| Landing.LandingView.SignUpSuccess | src/pages/landing_page.jsx:34-41 | user and token stored together, signed in, sign-up modal closed |
| Landing.LandingView.Logout | src/pages/landing_page.jsx:48-53 | token and user removed and signed out |

## Left out

- Navigation (`navigate`, `window.location.href`), `console` logging, audio, JSX, SVG and CSS are presentation and routing effects; the model has none of them.
- `alert` is modelled as a returned `notice` text in the dashboard intention save and in the settings handlers. The weekly review's report alerts and the dashboard's sleep-save alert are not modelled.
- Network traffic and the backend are not modelled: each awaited answer is a parameter, so each handler is proved for every possible answer.
- The order and interleaving of overlapping requests are not modelled. That includes the two mount effects that both fetch the dashboard, and the not-awaited history refresh in `handleSaveSleepData`. Each handler runs to completion in one call.
- Dates and locales are not modelled: `formatDate`, `getCurrentWeekRange`, `toLocaleDateString` and the year. They depend on the clock and the locale.
- `src/modals/SignInModal.jsx`, `src/modals/signUpModal.jsx` and `src/App.jsx` are not part of this model. Their success callbacks are modelled as the landing page's `SignInSuccess` and `SignUpSuccess`.
- Floating point is not modelled: numbers are exact reals, so `300/7*index` rounding and `toFixed(1)` are outside the model. Number-to-text and `Number()` are the parameters `show` and `read`.
- SleepInput.ParseFloat: reads only a digits-point-digits prefix (no sign, exponent, leading whitespace or "Infinity"). Filtered input can hold nothing else; a value loaded from `currentData` is taken as its number.
- Strings.ToUpper: upper-cases only the ASCII letters a–z, where `toUpperCase` handles all of Unicode. A character is a Unicode scalar, not a UTF-16 unit, so `word[0]` of a name starting with an astral character differs.
- Dashboard.DashboardView.constructor: a stored user that is not JSON makes the source's mount effect throw. The model leaves `user` null instead.
- SettingsPage.SettingsView.FetchSettings: the decoded body always holds a settings record. A reply without one would set `settings` to `undefined` in the source, and that is not modelled.
- Dashboard.DashboardView.ToggleChecklist: checklists always have all three keys. A server checklist missing a key, where `!undefined` would turn the key on, is not modelled.
- The weekly review's week range, streak line, averages and entry counts are display text and are not modelled. Neither are the dashboard's sleep ring, the details line and the default intention text, nor the modal's `isOpen` rendering and the dashboard's `showSleepModal` flag.
