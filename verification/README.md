# Schoolmaps client core in Dafny

This project models the client-side logic of the Schoolmaps study app: its
top-level `App` component, the pomodoro timer of the study tools, and the
first-run tutorial carousel. It proves properties of each.

- **`App` component (App.tsx).** The state cells are fields of the class
  `AppModel.App`. The listeners the component keeps are abstract handles in
  `AppState.Handles`: on the identity provider, on the user's profile
  document, on the calendar, on recent files, on subject files, and the
  resync listeners of failed saves. Every event is one method: a user
  action, a listener callback, or the loading-screen timer firing. Inside
  that method, the React effects whose dependencies changed run to
  completion, in declaration order. The class invariant `App.Valid` states:
  - exactly one identity listener while mounted;
  - an open profile listener belongs to the current identity;
  - the data listeners are keyed by (uid, subject);
  - without a valid key, the lists are empty;
  - the user's non-empty theme and language preferences are in use;
  - no tutorial is due: a user who has not completed it never finds the `justRegistered` marker still set.

  The pure parts are separate modules:
  - `Profile`: profile projection and the optimistic merge;
  - `Feeds`: queries and the subject-file search;
  - `Lookup`: `t`, `tSubject`, `getThemeClasses`;
  - `Text`: the JavaScript string operations these rely on.
- **Study timer (components/views/tools/StudyTimerView.tsx).**
  `StudyTimer.Commit` and `StudyTimer.Settle` model the component's
  render/effect cycle as written. The class `StudyTimer.Timer` is the
  corrected state machine (see Findings).
- **Tutorial (components/views/TutorialView.tsx).** `Tutorial` holds pure
  functions for the buttons and the rendered card. The class
  `Tutorial.Carousel` holds the `step` cell.

Models of the outside world:
- The document store is represented by the guarantees of its snapshots (`Feeds.AnswersFiles`, `Feeds.AnswersEvents`).
- The identity provider, clocks, `localStorage` and the translation, subject-name and theme tables are constructor parameters or method arguments.
- `sessionStorage` is a `map` field.
- Requests to the outside are recorded when issued, whether or not they later succeed: every profile write and every picture upload path in a sequence, and sign-out requests as a count.

## Model

| member | source | states |
|---|---|---|
| Text.IndexOfFrom | App.tsx:229 | the first occurrence of the pattern at or after `k`, or -1 exactly when there is none |
| Text.IndexOf | App.tsx:229 | `indexOf`: -1 exactly when the pattern occurs nowhere, otherwise the least index where it occurs |
| Text.Contains | App.tsx:334-335 | `includes` holds exactly when the pattern occurs somewhere |
| Text.ReplaceFirst | App.tsx:229 | `replace` with a string pattern changes only the first occurrence, keeps the text around it, and leaves a string without an occurrence unchanged |
| Text.LowerChar | App.tsx:332 | an upper-case letter becomes its lower-case partner, 32 code points on; the result is never upper case; other characters are kept |
| Text.ToLower | App.tsx:332-335 | `toLowerCase` keeps the length, maps character by character and leaves no upper-case letter |
| Text.ToLowerIdempotent | App.tsx:332-335 | lower-casing twice equals lower-casing once |
| Text.UpperChar | App.tsx:236 | a lower-case letter becomes the single upper-case letter that lower-cases back to it; the sharp s becomes "SS"; ASCII non-letters are kept; always one or two characters |
| Text.TrimStart | App.tsx:331 | drops exactly the longest blank prefix: the rest of the input, not starting with white space, empty exactly for blank input |
| Text.TrimEnd | App.tsx:331 | drops exactly the longest blank suffix: the start of the input, not ending with white space, empty exactly for blank input |
| Text.Trim | App.tsx:331 | `trim`: the input is a blank prefix, the result and a blank suffix; the result has no white space at either end and is empty exactly when the input is blank |
| Text.DigitChar | components/views/tools/StudyTimerView.tsx:29-30 | the digit character of a value below 10 denotes that value |
| Text.Digits | components/views/tools/StudyTimerView.tsx:29-30 | `toString` of a natural number: decimal digits, exactly one for values below 10, with a leading zero only for 0 (with `ValueOfDigits`, the numeral of the number) |
| Text.ValueOfDigits | components/views/tools/StudyTimerView.tsx:29-30 | reading the decimal digits of `n` back gives `n` |
| Text.ValueIgnoresLeadingZeros | components/views/tools/StudyTimerView.tsx:29-30 | zeros put in front by `padStart` do not change the value of a numeral |
| Text.PadStart | components/views/tools/StudyTimerView.tsx:29-30 | `padStart`: at least the requested width, the original string at the end, the fill character before it |
| Text.Utf8 | App.tsx:410 | the UTF-8 encoding of one code point has 1-4 bytes and is one byte exactly for ASCII |
| Text.PercentEncode | App.tsx:410 | `%XX` escapes: three URI-safe characters per byte |
| Text.EncodeUriComponent | App.tsx:410 | `encodeURIComponent` leaves only unreserved characters and `%`, and leaves a string of unreserved characters unchanged |
| Feeds.EventsQuery | App.tsx:284 | the calendar query is ordered by start time ascending, unbounded and unfiltered |
| Feeds.RecentFilesQuery | App.tsx:292 | the recent-files query selects the owner's files, newest first, at most 5 |
| Feeds.SubjectFilesQuery | App.tsx:313-318 | the subject-files query selects the owner's files of that subject, newest first, unbounded |
| Feeds.KeepMatching | App.tsx:333-336 | `filter` returns an order-preserving subsequence holding every matching file as often as it occurs in the input and no other file |
| Feeds.SearchFiles | App.tsx:330-337 | a blank query returns the files unchanged; otherwise every file whose lower-cased title or non-empty description contains the lower-cased query, as often as it occurs, and no other; always a subsequence |
| Feeds.SubsequenceReflexive | App.tsx:331 | the unchanged list is a subsequence of itself |
| Feeds.KeepMatchingIdempotent | App.tsx:333-336 | filtering the filtered files again changes nothing |
| Feeds.SearchIdempotent | App.tsx:330-337 | searching the search result with the same query gives the same result |
| Feeds.KeepAllMatching | App.tsx:333-336 | when every file matches, the filter returns the files unchanged |
| Feeds.SubsequenceKeepsOrder | App.tsx:317-337 | the search result of newest-first files is itself newest first |
| Feeds.SubsequenceElements | App.tsx:333-336 | every file in the search result is one of the input files |
| Lookup.Translation | App.tsx:227 | `t`'s lookup: the current language's non-empty entry, else the Dutch one, else the key; a non-empty key never gives empty text |
| Lookup.UnknownLanguageReadsDutch | App.tsx:226-227 | a language without a table reads exactly like Dutch |
| Lookup.AbsentPlaceholdersKeepText | App.tsx:228-230 | replacements whose `{name}` does not occur leave the text unchanged |
| Lookup.SingleReplacement | App.tsx:228-230 | one replacement puts its value exactly where the first `{name}` stood |
| Lookup.UnderscoresToSpaces | App.tsx:236 | `replace(/_/g, ' ')` keeps the length, turns every underscore into a space and keeps every other character |
| Lookup.Humanize | App.tsx:236 | the fallback subject name: empty exactly for the empty key; otherwise the upper-cased first character followed by the rest of the key with underscores turned into spaces |
| Lookup.SubjectName | App.tsx:234-237 | `tSubject`: the current language's non-empty name, else the humanized key, with no Dutch fallback |
| Lookup.ThemeClass | App.tsx:211-223 | `getThemeClasses`: the colour's class, else emerald's class of the variant, else empty, and empty exactly when neither exists |
| Lookup.UnknownColorRendersEmerald | App.tsx:222 | an unknown theme colour renders exactly like emerald |
| Profile.AvatarChanged | App.tsx:372 | the avatar update carries the new address and no other property |
| Profile.AvatarUrl | App.tsx:410 | the generated avatar address is the fixed prefix, the encoded name and the fixed suffix; the name part is URI-safe |
| Profile.ProjectExisting | App.tsx:403-421 | every property of an existing document is the stored value when truthy (the picture address included) and its fixed default otherwise; the uid is the identity's |
| Profile.ProjectMissing | App.tsx:422-438 | without a document: identity claims for email and name, the identity's photo else the avatar of its display name, empty subjects, tutorial not done, language and theme from local storage else `nl`/`emerald` |
| Profile.Project | App.tsx:401-439 | the projected user always belongs to the signed-in identity, and is normal when the document exists |
| Profile.ProjectStored | App.tsx:403-421 | a normal profile stored and read back projects to itself |
| Profile.ProjectionIdempotent | App.tsx:403-421 | projecting a projected profile again changes nothing |
| Profile.Merge | App.tsx:344 | `{...user, ...partial}`: stored, the result is the stored user overridden property by property by the partial, so every supplied property takes the new value and every other one is kept |
| Profile.MergeIdempotent | App.tsx:344 | applying the same partial update twice equals applying it once |
| Profile.MergeStored | App.tsx:354 | merging a whole stored document replaces the local user by it |
| Profile.MergeCompose | App.tsx:344 | two successive updates equal one update in which the later wins |
| AppState.UidOf | App.tsx:278 | `user?.uid` is present exactly when there is a user, and is that user's uid |
| AppState.KeyOf | App.tsx:278 | the data listeners' key is present exactly for a present, non-empty, non-guest uid |
| AppState.SubjectKeyOf | App.tsx:308 | the subject listener's key is present exactly for a valid uid and a non-empty subject, and is that pair |
| AppState.LiveByKind | App.tsx:388-401 | an open listener is the handle its kind's effect keeps, or a resync listener |
| AppState.IssuedIsNew | App.tsx:401 | a listener issued now was not open before |
| AppState.ProfileReplaced | App.tsx:391-401 | opening a profile listener closes the previous one and leaves at most one open |
| AppState.ProfileClosed | App.tsx:442-446 | a profile listener ending in an error is closed, and only it |
| AppState.SignedOut | App.tsx:448 | signing out closes the profile listener and the three data listeners and nothing else: the identity listener and the resyncs stay open |
| AppState.AuthRestarted | App.tsx:387-461 | a new run of the authentication effect closes the previous identity and profile listeners and opens one identity listener |
| AppState.ResyncOpened | App.tsx:351-356 | a resync listener is new and adds only itself to the open listeners |
| AppState.UnmountLeavesResyncs | App.tsx:457-460 | the cleanups of unmounting leave only the resync listeners open |
| AppState.DataRun | App.tsx:277-305 | the calendar and recent-files effect keys both listeners by the uid (none without a valid key), uses new ids and changes no other handle |
| AppState.SubjectRun | App.tsx:307-328 | the subject-files effect keys its listener by (uid, subject) (none without a key), uses a new id and changes no other handle |
| AppState.DataRunValid | App.tsx:277-305 | the calendar and recent-files effect keeps the handles valid, and the listeners it opens are new |
| AppState.SubjectRunValid | App.tsx:307-328 | the subject-files effect keeps the handles valid, and its listener is new |
| AppState.SubjectRunLive | App.tsx:307-328 | a run of the subject-files effect replaces exactly the subject listener |
| AppState.FeedsRestarted | App.tsx:277-328 | both data effects together key the three feeds, keep the identity, profile and resync listeners, and without a valid uid close all three |
| AppModel.App.AuthEffect | App.tsx:387-461 | the authentication effect opens a new identity listener and no profile listener, keeping the invariants of both |
| AppModel.App.PreferenceEffect | App.tsx:464-477 | non-empty preferences become theme and language; the tutorial opens, and the marker goes, exactly when due |
| AppModel.App.ReplaceUser | App.tsx:277-328 | `setUser` and its data effects: listeners unchanged for the same uid, otherwise re-keyed to the new uid and subject; a list whose feed still has a key keeps its contents, even under a new key, until the new listener delivers; without a key it is empty |
| AppModel.App.PreferenceCommit | App.tsx:461-477 | the preference effect, and a restart of the authentication effect exactly when the language changed |
| AppModel.App.SetUser | App.tsx:440 | the new user with its preferences applied, keeping the invariant (`UserCommitted`): the data listeners re-keyed when the uid changed, the identity listener restarted when the language changed, still-keyed lists kept, the registration marker removed when the tutorial opens |
| AppModel.App.constructor | App.tsx:193-208 | the first render: no user, `initializing`, theme and language from local storage, one identity listener open; the given tables, storage, session and identity are kept, and no write, upload or sign-out has happened yet |
| AppModel.App.Unmount | App.tsx:457-460 | unmounting closes every listener but the resync ones |
| AppModel.App.T | App.tsx:225-232 | the loop of `t` gives the translation with each replacement applied in order to the first `{name}` |
| AppModel.App.SubjectFiles | App.tsx:330-337 | `subjectFiles` is a subsequence of all subject files, equal to them for a blank query, otherwise every matching file as often as it occurs and no other |
| AppModel.App.OnAuthStateChanged | App.tsx:390-455 | an identity opens a listener on its profile and closes the previous one; no identity clears the user and data, queues `unauthenticated` and shows the logout notice only when marked; an identity leaves the notice, session and lists untouched; only the identity, user, notice, session, status queue, listeners and lists may change at all; a closed listener's callback changes nothing |
| AppModel.App.SignIn | App.tsx:399-401 | a signed-in identity gets a new profile listener, the previous one closed |
| AppModel.App.SignOut | App.tsx:447-454 | user and data cleared, `unauthenticated` queued, the notice shown and the marker removed exactly when the marker was set |
| AppModel.App.ClearUser | App.tsx:448 | `setUser(null)`: the identity, its profile listener, the data listeners and the lists go |
| AppModel.App.LogoutNotice | App.tsx:449-452 | the logout notice shows exactly when the marker is `'true'`, and the marker is removed, so it shows once |
| AppModel.App.OnProfileSnapshot | App.tsx:401-441 | the open profile listener's snapshot becomes the user, preferences applied, `authenticated` queued, listeners and lists as `UserCommitted` states; a stale one changes nothing at all |
| AppModel.App.AcceptProfile | App.tsx:401-441 | a snapshot of the open profile listener becomes the projected user, `authenticated` is queued and preferences are applied, as `UserCommitted` states |
| AppModel.App.OnProfileError | App.tsx:442-446 | the error notice, `unauthenticated` queued and the listener closed; the user is kept |
| AppModel.App.LoadingDelayElapsed | App.tsx:393-397 | the oldest queued status becomes the app status while mounted and is dropped after unmount |
| AppModel.App.OnEventsSnapshot | App.tsx:285-287 | only the current calendar listener's snapshot replaces the events, which stay earliest first |
| AppModel.App.OnFilesSnapshot | App.tsx:293-322 | only the current files listeners' snapshots replace their list; recent files stay at most 5 and newest first |
| AppModel.App.ShowModal | App.tsx:239 | `showAppModal` puts the content in the modal slot |
| AppModel.App.CloseModal | App.tsx:240 | `closeAppModal` empties the modal slot |
| AppModel.App.HandleLogout | App.tsx:260-269 | logging out only asks for confirmation |
| AppModel.App.ConfirmLogoutAction | App.tsx:263-266 | confirming sets the logout marker and requests one sign-out |
| AppModel.App.GoHome | App.tsx:271-274 | back to the home view with no subject, the subject listener closed and its list empty |
| AppModel.App.SetCurrentView | App.tsx:203 | the view changes and nothing else |
| AppModel.App.SetCurrentSubject | App.tsx:307-328 | a changed subject re-keys the subject listener; with a key the list keeps its contents until the new listener delivers, with no key it is empty |
| AppModel.App.SetSearchQuery | App.tsx:330-337 | the shown subject files become the search of all subject files for the new query |
| AppModel.App.SetThemeColor | App.tsx:464-468 | a chosen colour stays only if the user has no non-empty theme preference; the language, session and tutorial flag stay as they were |
| AppModel.App.SetLanguage | App.tsx:461 | a changed language restarts the authentication effect; a user's non-empty language preference overrides the choice; the theme, session and tutorial flag stay as they were |
| AppModel.App.HandleProfileUpdate | App.tsx:339-348 | nothing at all without an identity; otherwise the user becomes `{...user, ...patch}` at once (listeners and lists as `UserCommitted` states) and one merge write is sent for the identity's uid |
| AppModel.App.OnProfileWriteFailed | App.tsx:349-358 | a failed write opens a resync listener that is never closed, and shows the notice while mounted |
| AppModel.App.OpenResync | App.tsx:351-356 | the resync listener is added to the handles with a new id |
| AppModel.App.OnResyncSnapshot | App.tsx:352-356 | an existing document from a resync listener is merged into a non-null user, with its preferences applied and the tutorial opened if it became due, as `UserCommitted` states; otherwise nothing at all changes |
| AppModel.App.HandleProfilePicUpload | App.tsx:362-377 | refused with a notice and no request for a missing or guest user; otherwise the upload request, the write and the outcome's notice |
| AppModel.App.UploadPicture | App.tsx:367-376 | the upload request for the path whatever its outcome, the avatar write only after a successful upload and address, and the success notice only when the write went through |
| AppModel.App.HandleTutorialFinished | App.tsx:379-384 | the tutorial closes; without a user nothing else changes; a user gets `hasCompletedTutorial` merged in and written, with its theme and language preferences applied, as `UserCommitted` states |
| StudyTimer.Flip | components/views/tools/StudyTimerView.tsx:48 | switching always changes the mode |
| StudyTimer.TwoDigits | components/views/tools/StudyTimerView.tsx:29-30 | `toString().padStart(2, '0')`: all digits, exactly two below 100, and from 10 on the plain numeral with no padding |
| StudyTimer.FormatTime | components/views/tools/StudyTimerView.tsx:28-32 | `MM:SS`: the digits before the colon denote the whole minutes and the two after it the remaining seconds; no leading zero from 10 minutes on; exactly five characters below 100 minutes |
| StudyTimer.ColonParts | components/views/tools/StudyTimerView.tsx:31 | the parts either side of the colon are the minutes and the seconds |
| StudyTimer.ColonValues | components/views/tools/StudyTimerView.tsx:31 | either side of the colon of `mm:ss` denotes the value of `mm` and of `ss` |
| StudyTimer.PaddedValue | components/views/tools/StudyTimerView.tsx:29-30 | a padded number reads back as that number |
| StudyTimer.ParseParts | components/views/tools/StudyTimerView.tsx:31 | `MM:SS` reads back as MM*60+SS |
| StudyTimer.FormatTimeRoundTrip | components/views/tools/StudyTimerView.tsx:28-32 | reading the display back as MM*60+SS gives exactly the seconds shown |
| StudyTimer.Commit | components/views/tools/StudyTimerView.tsx:53-65 | one commit notifies exactly when `switchMode` fires in focus mode, and changes nothing when neither effect is due |
| StudyTimer.TickAsWritten | components/views/tools/StudyTimerView.tsx:57-60 | a tick before zero only counts down by one |
| StudyTimer.ToggleAsWritten | components/views/tools/StudyTimerView.tsx:105 | play/pause only flips `isActive` and starts or stops the interval |
| StudyTimer.ExpiryAsWritten | components/views/tools/StudyTimerView.tsx:39-65 | the end of a session switches the mode twice: the same mode, stopped, at full duration |
| StudyTimer.NoBreakAfterFocus | components/views/tools/StudyTimerView.tsx:14-65 | a 25-minute focus session that reaches zero returns to the initial focus state instead of a break |
| StudyTimer.FocusInputAsWritten | components/views/tools/StudyTimerView.tsx:53-55 | a changed focus length resets the timer exactly as `Timer.SetFocusMinutes` does |
| StudyTimer.SwitchSession | components/views/tools/StudyTimerView.tsx:39-51 | the intended switch: the other mode, running, at its full duration, settled |
| StudyTimer.SwitchSessionTwice | components/views/tools/StudyTimerView.tsx:48-50 | two switches return to the starting mode, running, at full duration |
| StudyTimer.Timer.constructor | components/views/tools/StudyTimerView.tsx:14-19 | 25 and 5 minutes, focus, 25:00, stopped |
| StudyTimer.Timer.Tick | components/views/tools/StudyTimerView.tsx:57-62 | an active tick counts down by one, and at zero starts the other session, notifying after focus; `0 < timeLeft <= full` is kept |
| StudyTimer.Timer.Toggle | components/views/tools/StudyTimerView.tsx:105 | play/pause flips `isActive` and nothing else |
| StudyTimer.Timer.ResetTimer | components/views/tools/StudyTimerView.tsx:34-37 | stopped, at the current mode's full duration, nothing else changed |
| StudyTimer.Timer.SetFocusMinutes | components/views/tools/StudyTimerView.tsx:76 | ignored while active; otherwise clamped to at least 1, and a change resets the timer |
| StudyTimer.Timer.SetBreakMinutes | components/views/tools/StudyTimerView.tsx:80 | ignored while active; otherwise clamped to at least 1, and a change resets the timer |
| Tutorial.Next | components/views/TutorialView.tsx:48-54 | before the last card advance by one without finishing; on the last card finish and stay |
| Tutorial.Prev | components/views/TutorialView.tsx:56-60 | back by one, a no-op on the first card, always within the five cards |
| Tutorial.PrevUndoesNext | components/views/TutorialView.tsx:48-60 | Back undoes Next on every card but the last |
| Tutorial.NextUndoesPrev | components/views/TutorialView.tsx:48-60 | Next undoes Back on every card but the first |
| Tutorial.LeftButton | components/views/TutorialView.tsx:83-91 | Skip exactly on the first card, Back on the others |
| Tutorial.PrimaryLabelKey | components/views/TutorialView.tsx:94 | the finish label exactly on the last card, the next label otherwise |
| Tutorial.Render | components/views/TutorialView.tsx:44-98 | nothing when closed; otherwise one dot per card lit exactly at the current one, and the arrow exactly before the last card |
| Tutorial.Run | components/views/TutorialView.tsx:48-91 | any sequence of presses keeps the card index within the five cards |
| Tutorial.NextPresses | components/views/TutorialView.tsx:48-54 | `k` Next presses from card `s` show card `s+k` without finishing while within the cards |
| Tutorial.FinishAfterFivePresses | components/views/TutorialView.tsx:16-54 | only the fifth Next press from the welcome card finishes the tutorial |
| Tutorial.RunAppend | components/views/TutorialView.tsx:48-91 | presses compose: running `a + b` is running `b` where `a` ended |
| Tutorial.Carousel.constructor | components/views/TutorialView.tsx:14 | the tutorial starts on the welcome card |
| Tutorial.Carousel.PressNext | components/views/TutorialView.tsx:48-54 | the primary button does what `Next` states, reporting `onFinish` |
| Tutorial.Carousel.PressLeft | components/views/TutorialView.tsx:56-60 | the left button finishes exactly on the first card (Skip) and otherwise goes back |

## Left out

- Firebase I/O is abstract. This covers `onSnapshot`, `setDoc`, `uploadBytes`, `getDownloadURL`, `onAuthStateChanged` and `signOut`. A listener is a handle in `Handles`; a snapshot, an error or the end of a write is an event method called with the delivered data. A write or an upload request is appended to a sequence and a sign-out request counted; the result of an upload is an `UploadOutcome` argument.
- The document store's query semantics are not computed. A snapshot is assumed to satisfy the query's limit, filters and order (`AnswersFiles`, `AnswersEvents`), which is what the store promises.
- The interleaving of other events with an avatar upload in progress is not modelled. `HandleProfilePicUpload` takes the whole outcome at once.
- `handleProfileUpdate`'s `await` is collapsed: the optimistic update and the write request happen in one step, and a failure arrives later as `OnProfileWriteFailed`.
- AppModel.App.OnProfileWriteFailed: a resync listener is never closed in the source. The model keeps it open forever and lets its snapshots merge into the user at any later time, without stating a rollback.
- The stale listener window is left out. After a cleanup has run, a closed listener's callbacks are ignored (the handle checks in the event methods). A callback already queued before the cleanup cannot be expressed.
- The 1500 ms `finishLoading` delay is not timed. Statuses are queued in `pendingStatus` and applied one at a time by `LoadingDelayElapsed`.
- The timer's one-second interval is not timed either: each `Tick` is one firing.
- The online/offline effect and `isOnline` (App.tsx:242-258) are not modelled, because they are browser events unrelated to the state above.
- The offline indicator is not modelled, for the same reason.
- `copyTextToClipboard` (App.tsx:479-489) is not modelled, because it depends on the clipboard API.
- `ProfilePicModal`'s file and preview state (App.tsx:139-188) is not modelled, because it is object URLs and DOM.
- `MainAppLayout`'s sidebar click handling (App.tsx:79-96) is not modelled, because it is DOM.
- The timer's `Audio` bell is not modelled; only the notification count is kept.
- Rendering is not modelled: JSX, CSS, the loading screen and the views. The only exceptions are the tutorial's card (`Tutorial.Render`) and which screen the status selects (it is a field).
- The literal translation, subject-name and theme tables are parameters; only their fallback rules are modelled.
- components/ui/Modal.tsx is not part of this model. The modal slot holds the text and whether confirming signs out.
- Floating point is not modelled: the timer's progress ring and stroke offset (StudyTimerView.tsx:67-69).
- `Number(e.target.value)` parsing is not modelled. A duration input arrives as an integer; NaN and fractions are not modelled.
- Text.ToLower: maps only the Basic Latin and Latin-1 Supplement letters. Full Unicode case mapping is not modelled.
- Strings are sequences of Unicode code points, whereas JavaScript strings are UTF-16 code units. The two differ for characters outside the Basic Multilingual Plane: `charAt(0)` in `tSubject` would see half of such a character, and `encodeURIComponent` of a lone surrogate throws. Neither case is modelled.
- The `justRegistered` marker is set by the registration view, which is not part of this model. The marker is taken as present in `session` from mount on; for `App`, which only reads and removes it, this is observably the same.
- Text.UpperChar: maps only the Basic Latin and Latin-1 Supplement letters. Full Unicode case mapping is not modelled.
- Profile.Merge: a property present with the value `null` or `undefined` is not represented. In `{...user, ...partial}` (App.tsx:344, 354) such a property overrides the user's value; `UserFields` has only absent (`None`) properties, which keep it.
- Lookup.ApplyReplacements takes the replacements as an ordered sequence. The enumeration order of a JavaScript object's keys is that order.
- Replacement values are already strings, so `String(value)` of a number is not modelled.
- `$` patterns in replacement strings are not interpreted.
- Profile.ProjectExisting: the raw document's property types are not checked. A property of the wrong type is outside the model, and a truthy non-string is not represented.
- Dates are reduced to a `Timestamp`; `new Date()` is the `now` argument.
- StudyTimer.Settle: it follows at most `Fuel` (5) commits. Every event the lemmas cover settles within that bound.
- Two tutorial clicks within one render are not modelled: every press sees the state of the previous one.
- The component's render of `step` via `tutorialSteps[step]` is not modelled, because the card contents are translation keys.
- The preference effect's re-runs caused by `showAppModal`, `handleProfileUpdate` and `t` are not modelled separately. They run the same body, which does nothing more once the preferences hold and the marker is gone.

## Findings

| source | as written | input that shows it | evidently intended | confidence | as-written member | corrected member |
|---|---|---|---|---|---|---|
| components/views/tools/StudyTimerView.tsx:39-65 | when a running session reaches 0, `switchMode` flips the mode and sets `isActive`; the new mode re-runs the reset effect (stopped, full duration) and also re-creates `switchMode`, so the tick effect re-runs while `timeLeft` is still 0 and switches back | a focus session of 25 minutes ticking from 00:01 to 00:00 ends in focus mode at 25:00, stopped, after one notification | the break session starts automatically with its full duration, as the comment on line 50 says | not executed | StudyTimer.ExpiryAsWritten, StudyTimer.NoBreakAfterFocus | StudyTimer.SwitchSession, StudyTimer.Timer.Tick |
