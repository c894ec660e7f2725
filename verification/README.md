# MindSpace wellbeing app — a Dafny model of its logic

MindSpace is a bilingual (English/Thai) mental-wellbeing web app. This
project models, as pure Dafny functions over immutable data, the parts of
it that carry decisions rather than layout:

- **Meditation timer** (`Meditation`): the session registry, the
  one-second tick that counts up to the session length and completes it,
  play/pause, stop and restart, the `m:ss` clock display, and what the page
  does with an unknown session id.
- **Language** (`LanguageContext`): the English and Thai translation
  tables, `t(key)` with its fall-back to the key, and the language choice
  persisted under `app_language` in browser storage.
- **AI chat** (`MoodChat`): the keyword mood classifier, the canned replies
  per language and mood, the mood badge and suggested action, and the
  send/typing/reply exchange.
- **Therapist directory and booking** (`TherapistSearch`,
  `TherapistBooking`): search by name or specialization with price bands,
  the rate colour, and the date/time/payment/confirmation wizard.
- **Smartwatch** (`Smartwatch`, `DeviceSettings`): simulated device
  connection, heart-rate and sleep feeds with bounded histories, and the
  profile's device panel (connect buttons, last-sync caption).
- **Onboarding** (`Onboarding`): the three-step first-run wizard.
- **Developer QA panels** (`QaRuns`, `DeploymentChecker`, `TestingUtils`,
  `AbTesting`, `PerformanceMonitor`): the run-all loop shared by the
  deployment and test panels, the deployment-readiness rule, the status
  badges, A/B experiment toggling and reporting, and the performance badge.

Shared helpers live in `Wrappers` (`Option`) and `Text` (ASCII
lower-casing, `includes`, `trim`, decimal formatting and `padStart`).

Conventions of the model:

- Randomness (`Math.random`) becomes a bounded natural-number parameter
  (`roll < 40` for a battery level of `60 + roll`, `draw < 2` for the choice
  of one of two replies).
- Clocks become explicit parameters (`now` in milliseconds, or a calendar
  day plus milliseconds since its midnight), and generated ids are
  parameters too. The smartwatch readings' own time stamps
  (`HeartRateData.timestamp`, `SleepData.date`) are dropped: nothing in the
  hook reads them back, and each history keeps generation order.
- Timers (`setTimeout`, `setInterval`) become explicit events:
  - the meditation page's interval is `TickEvent`;
  - the booking page's payment delay is `PaymentDone`;
  - the smartwatch feeds are `HeartRateTick` and `SleepTick`.
- React state updates become functions from the old state to the new one.
  Browser storage is a `map<string, string>`.

Two facts about the meditation timer shape its model:

- The page has one play/pause toggle. Pressing it twice therefore resumes,
  and `PlayPauseTwice` proves that two presses restore the state.
- The page has no guard for an unknown session id before it reads the
  session's length, so such an id crashes the page (finding 1 below).

A few behaviours of the code as written are proved as stated, not corrected:

- The booking page preselects today, which the calendar itself would
  refuse after midnight or at a weekend (`PreselectedDayReachesPayment`).
- The deployment panel reads "Ready" before any check has run
  (`FreshPanelReadsReady`).
- A performance threshold pair given in the wrong order never shows
  orange (`InvertedThresholdsSkipOrange`).

## Model

| member | source | states |
|---|---|---|
| Meditation.LookupSession | src/pages/Meditation.tsx:29-56 | a session id is known exactly for the three listed sessions, each with a positive length |
| Meditation.Initial | src/pages/Meditation.tsx:24-27 | the page opens paused at second 0, not complete, with the session's length; valid for a positive length |
| Meditation.Remaining | src/pages/Meditation.tsx:161 | the big clock never shows more than the session length, and shows zero exactly when the session is complete |
| Meditation.RemainingCountsDown | src/pages/Meditation.tsx:58-98 | the big clock drops by exactly one second on each installed tick; nothing else lowers it; stop and restart refill it to the full length |
| Meditation.Tick | src/pages/Meditation.tsx:59-77 | a tick never breaks validity, advances by at most one second and only while playing, does nothing once complete or paused, and the final second stops playback and marks the session complete |
| Meditation.CompletionNotifiedOnTransition | src/pages/Meditation.tsx:65-69 | the completion toast fires exactly on the tick that turns an incomplete session complete |
| Meditation.PlayPause | src/pages/Meditation.tsx:85-87 | the button flips playing and changes nothing else |
| Meditation.PlayPauseTwice | src/pages/Meditation.tsx:86 | pressing play/pause twice restores the timer |
| Meditation.Stop | src/pages/Meditation.tsx:89-93 | stop returns to the opening state, with the whole session remaining |
| Meditation.Restart | src/pages/Meditation.tsx:95-99 | restart is the opening state but playing, so the next tick counts |
| Meditation.RunPreservesValid | src/pages/Meditation.tsx:59-99 | any sequence of ticks and button presses keeps the timer valid and its length fixed |
| Meditation.NotifiedAtMostOnce | src/pages/Meditation.tsx:65-68 | without stop or restart, a session announces completion at most once, and never if already complete |
| Meditation.TicksWhilePlaying | src/pages/Meditation.tsx:62-71 | n ticks while playing add n seconds, and exactly the remaining number of ticks completes the session |
| Meditation.FullSessionCompletes | src/pages/Meditation.tsx:62-69 | from the opening state, play followed by as many ticks as the session has seconds ends complete, stopped, at the full length |
| Meditation.TicksWhileIdle | src/pages/Meditation.tsx:62 | ticks while paused or complete change nothing |
| Meditation.JoinClock | src/pages/Meditation.tsx:82 | the display is minutes, a colon, then seconds, with nothing lost |
| Meditation.SecondsField | src/pages/Meditation.tsx:81-82 | the seconds field is always two digits |
| Meditation.FormatTime | src/pages/Meditation.tsx:79-83 | the display is digits, a colon, and exactly two digits |
| Meditation.ParseClock | src/pages/Meditation.tsx:82 | reading back a joined clock gives 60 times the minutes plus the seconds |
| Meditation.ParseClockOf | src/pages/Meditation.tsx:80-82 | a clock built from any minutes and seconds below 60 reads back to their total |
| Meditation.DivMod60 | src/pages/Meditation.tsx:80-81 | seconds split into whole minutes and a remainder below 60 |
| Meditation.ParseClockOfSeconds | src/pages/Meditation.tsx:80-82 | the minutes and padded seconds of any count read back to that count |
| Meditation.FormatTimeRoundTrip | src/pages/Meditation.tsx:79-83 | the `m:ss` display of any number of seconds reads back to that number |
| Meditation.OpenAsWritten | src/pages/Meditation.tsx:56-57 | as written, the page crashes exactly for an unknown id, before reaching its not-found screen |
| Meditation.UnknownSessionCrashes | src/pages/Meditation.tsx:56-57 | the content page's `478-breathing` session crashes the meditation page |
| Meditation.Open | src/pages/Meditation.tsx:107-119 | corrected: never crashes, shows not-found exactly for unknown ids, and otherwise a valid opening timer for that session |
| LanguageContext.EnglishNavigation | src/contexts/LanguageContext.tsx:16-22 | every English navigation key has a non-empty text |
| LanguageContext.EnglishHome | src/contexts/LanguageContext.tsx:23-32 | every English home key has a non-empty text |
| LanguageContext.EnglishChat | src/contexts/LanguageContext.tsx:33-39 | every English chat key has a non-empty text |
| LanguageContext.EnglishContent | src/contexts/LanguageContext.tsx:40-50 | every English content key has a non-empty text |
| LanguageContext.EnglishTherapist | src/contexts/LanguageContext.tsx:51-58 | every English therapist key has a non-empty text |
| LanguageContext.EnglishProfile | src/contexts/LanguageContext.tsx:59-69 | every English profile key has a non-empty text |
| LanguageContext.EnglishOnboarding | src/contexts/LanguageContext.tsx:70-77 | every English onboarding key has a non-empty text |
| LanguageContext.EnglishPrivacy | src/contexts/LanguageContext.tsx:73-76 | every English privacy key has a non-empty text |
| LanguageContext.EnglishGeneral | src/contexts/LanguageContext.tsx:78-84 | every English button and premium key has a non-empty text |
| LanguageContext.ThaiNavigation | src/contexts/LanguageContext.tsx:87-93 | every Thai navigation key has a non-empty text |
| LanguageContext.ThaiHome | src/contexts/LanguageContext.tsx:94-103 | every Thai home key has a non-empty text |
| LanguageContext.ThaiChat | src/contexts/LanguageContext.tsx:104-110 | every Thai chat key has a non-empty text |
| LanguageContext.ThaiContent | src/contexts/LanguageContext.tsx:111-121 | every Thai content key has a non-empty text |
| LanguageContext.ThaiTherapist | src/contexts/LanguageContext.tsx:122-129 | every Thai therapist key has a non-empty text |
| LanguageContext.ThaiProfile | src/contexts/LanguageContext.tsx:130-140 | every Thai profile key has a non-empty text |
| LanguageContext.ThaiOnboarding | src/contexts/LanguageContext.tsx:141-148 | every Thai onboarding key has a non-empty text |
| LanguageContext.ThaiPrivacy | src/contexts/LanguageContext.tsx:144-147 | every Thai privacy key has a non-empty text |
| LanguageContext.ThaiGeneral | src/contexts/LanguageContext.tsx:149-155 | every Thai button and premium key has a non-empty text |
| LanguageContext.FirstOf | src/contexts/LanguageContext.tsx:14-157 | combining two sections finds a key exactly when one of them has it, and returns that section's text |
| LanguageContext.EnglishTable | src/contexts/LanguageContext.tsx:15-85 | every key of the English table has a non-empty text |
| LanguageContext.ThaiTable | src/contexts/LanguageContext.tsx:86-156 | every key of the Thai table has a non-empty text |
| LanguageContext.NavigationKeysAgree | src/contexts/LanguageContext.tsx:16-22 | the English and Thai navigation sections have the same keys |
| LanguageContext.HomeKeysAgree | src/contexts/LanguageContext.tsx:23-32 | the English and Thai home sections have the same keys |
| LanguageContext.ChatKeysAgree | src/contexts/LanguageContext.tsx:33-39 | the English and Thai chat sections have the same keys |
| LanguageContext.ContentKeysAgree | src/contexts/LanguageContext.tsx:40-50 | the English and Thai content sections have the same keys |
| LanguageContext.TherapistKeysAgree | src/contexts/LanguageContext.tsx:51-58 | the English and Thai therapist sections have the same keys |
| LanguageContext.ProfileKeysAgree | src/contexts/LanguageContext.tsx:59-69 | the English and Thai profile sections have the same keys |
| LanguageContext.OnboardingKeysAgree | src/contexts/LanguageContext.tsx:70-77 | the English and Thai onboarding sections have the same keys |
| LanguageContext.PrivacyKeysAgree | src/contexts/LanguageContext.tsx:73-76 | the English and Thai privacy texts have the same keys |
| LanguageContext.GeneralKeysAgree | src/contexts/LanguageContext.tsx:78-84 | the English and Thai general sections have the same keys |
| LanguageContext.TablesShareKeys | src/contexts/LanguageContext.tsx:14-157 | a key is translated in English exactly when it is translated in Thai |
| LanguageContext.Translate | src/contexts/LanguageContext.tsx:174-176 | `t` returns the table's text for a known key and the key itself otherwise, so a non-empty key never renders empty |
| LanguageContext.ParseCode | src/contexts/LanguageContext.tsx:163-164 | only `en` and `th` are accepted as stored language codes |
| LanguageContext.CodeRoundTrip | src/contexts/LanguageContext.tsx:163-171 | writing a language's code and reading it back gives that language, and the code is the only string that reads back to it |
| LanguageContext.StoredLanguage | src/contexts/LanguageContext.tsx:160-166 | a valid stored code selects its language; anything else, or nothing, leaves English |
| LanguageContext.SetLanguage | src/contexts/LanguageContext.tsx:169-172 | choosing a language sets it and stores its code, and leaves every other storage key as it was |
| LanguageContext.SetLanguagePersists | src/contexts/LanguageContext.tsx:160-172 | after choosing a language, a reload of the stored preferences restores it |
| MoodChat.SomeIncludedIff | src/pages/AIChat.tsx:58-60 | the front-to-back `some(includes)` scan hits exactly when some listed word occurs in the text |
| MoodChat.AnalyzeMood | src/pages/AIChat.tsx:51-62 | on the lower-cased message: stressed iff a stress word occurs; sad iff no stress word but a sad word; happy iff neither but a happy word; neutral iff none |
| MoodChat.StressWins | src/pages/AIChat.tsx:58 | any stress word makes the message stressed, whatever else it says |
| MoodChat.AnalyzeMoodCaseInsensitive | src/pages/AIChat.tsx:56 | letter case does not change the mood |
| MoodChat.NotGoodIsCalm | src/pages/AIChat.tsx:54 | the Thai "not good" contains no stress word |
| MoodChat.NotGoodIsSad | src/pages/AIChat.tsx:52-59 | the Thai "not good" contains the happy word "good" yet is classified sad, because the sad list is checked first |
| MoodChat.EnglishReplies | src/pages/AIChat.tsx:66-84 | each mood has two non-empty English replies |
| MoodChat.ThaiReplies | src/pages/AIChat.tsx:85-102 | each mood has two non-empty Thai replies |
| MoodChat.Replies | src/pages/AIChat.tsx:65-102 | each language and mood has two non-empty replies |
| MoodChat.ReplyList | src/pages/AIChat.tsx:104 | an unrecognised mood key falls back to the neutral replies |
| MoodChat.ReplyListOfMood | src/pages/AIChat.tsx:104 | each mood's own key finds that mood's replies |
| MoodChat.GenerateReply | src/pages/AIChat.tsx:104-105 | the reply is one of the candidates for the key, never empty |
| MoodChat.ReplyFitsMood | src/pages/AIChat.tsx:104-105 | a reply generated for a mood is one of that mood's replies |
| MoodChat.MoodIcon | src/pages/AIChat.tsx:153-160 | each mood has its own emoji; no mood and neutral share the neutral face |
| MoodChat.SuggestedRoute | src/pages/AIChat.tsx:162-200 | a suggested action appears exactly for a stressed, sad or happy reply |
| MoodChat.SuggestedSessionsCrash | src/pages/AIChat.tsx:168-190 | the breathing and gratitude suggestions open meditation ids the meditation page does not know, so it crashes |
| MoodChat.InitialChat | src/pages/AIChat.tsx:30-42 | the chat opens with one AI greeting, no mood, empty input, not typing |
| MoodChat.SendMessage | src/pages/AIChat.tsx:108-123 | a blank input does nothing; otherwise the user's message is appended, the input cleared, typing shown, and a reply is pending with the input's mood |
| MoodChat.SendDisabledIffIgnored | src/pages/AIChat.tsx:320 | the send button is disabled exactly when sending would be ignored |
| MoodChat.DeliverReply | src/pages/AIChat.tsx:125-137 | the delayed reply appends one AI message, tagged with the pending mood and drawn from that mood's replies, and stops typing |
| MoodChat.ExchangeTagsReplyWithInputMood | src/pages/AIChat.tsx:108-137 | a full exchange appends the user's message and then a reply tagged with that message's mood |
| TherapistSearch.BandOf | src/pages/Therapist.tsx:83-86 | every rate belongs to a band whose filter lets it through |
| TherapistSearch.BandsPartition | src/pages/Therapist.tsx:83-86 | a rate passes a band filter exactly when that band is its own |
| TherapistSearch.PriceColorAgreesWithBands | src/pages/Therapist.tsx:91-95 | green, blue and orange rates are exactly the low, medium and high bands |
| TherapistSearch.SomeSpecIncludesIff | src/pages/Therapist.tsx:79-81 | the specialization scan hits exactly when some lower-cased specialization contains the query |
| TherapistSearch.EmptyQueryMatches | src/pages/Therapist.tsx:78 | an empty search matches every therapist |
| TherapistSearch.SearchIgnoresQueryCase | src/pages/Therapist.tsx:78-80 | the query's letter case does not matter |
| TherapistSearch.MatchesSearchIff | src/pages/Therapist.tsx:78-81 | a search hits exactly when the lower-cased query occurs in the name or in a specialization |
| TherapistSearch.FilterTherapists | src/pages/Therapist.tsx:77-89 | the shown list holds exactly the therapists passing both search and price, and is no longer than the directory |
| TherapistSearch.FilterAppend | src/pages/Therapist.tsx:77 | filtering keeps the directory's order |
| TherapistSearch.NoFilterKeepsAll | src/pages/Therapist.tsx:77-89 | no query and no price filter show the whole directory in order |
| TherapistSearch.FilterIdempotent | src/pages/Therapist.tsx:77-89 | filtering an already-filtered list changes nothing |
| TherapistSearch.Directory | src/pages/Therapist.tsx:26-75 | the directory lists three therapists at 1500, 2000 and 1200 baht an hour |
| TherapistSearch.DirectoryBands | src/pages/Therapist.tsx:26-89 | each price band shows exactly one listed therapist |
| TherapistBooking.EnabledDays | src/pages/TherapistBooking.tsx:126 | the calendar offers exactly weekdays from today's midnight on |
| TherapistBooking.Initial | src/pages/TherapistBooking.tsx:23-25 | the page opens on the first step, today preselected, no time chosen |
| TherapistBooking.Step | src/pages/TherapistBooking.tsx:39-146 | back leaves the page only from the first step; the calendar refuses a disabled day and otherwise sets or clears the date; a slot is taken only once a date is chosen; continue moves to payment only with a date and a time, and does nothing off the first step; pay schedules one timer, and does nothing off the payment step; every pending timer that fires shows the confirmation, whatever the step; payment is reached only by continuing |
| TherapistBooking.ContinueDisabledIffRefused | src/pages/TherapistBooking.tsx:163 | the continue button is disabled exactly when the click would be refused |
| TherapistBooking.StepKeepsConsistent | src/pages/TherapistBooking.tsx:35-58 | the time is always empty or an offered slot, and payment always has a date and a time |
| TherapistBooking.RunKeepsConsistent | src/pages/TherapistBooking.tsx:35-70 | every run of events keeps the booking consistent |
| TherapistBooking.OpenedPageStaysConsistent | src/pages/TherapistBooking.tsx:23-70 | from the opening state, every run stays consistent |
| TherapistBooking.PreselectedDayReachesPayment | src/pages/TherapistBooking.tsx:23 | today, preselected, reaches payment even when the calendar would refuse it |
| TherapistBooking.StaleTimerConfirmsWithoutDate | src/pages/TherapistBooking.tsx:54-57 | as written, a payment timer that fires after going back and clearing the date confirms a booking with no date |
| TherapistBooking.StepGuarded | src/pages/TherapistBooking.tsx:51-58 | corrected: a payment timer confirms only while the payment step is shown, and every other event behaves as before |
| TherapistBooking.StepGuardedKeepsBooked | src/pages/TherapistBooking.tsx:51-58 | with the guard, payment and confirmation always have a date and an offered time |
| TherapistBooking.RunGuardedKeepsBooked | src/pages/TherapistBooking.tsx:35-70 | with the guard, every run keeps that property |
| TherapistBooking.RunGuardedConfirmsBooked | src/pages/TherapistBooking.tsx:51-58 | with the guard, a confirmation reached from the opening page always has a date and an offered time |
| Smartwatch.DeviceName | src/hooks/useSmartwatch.ts:65-72 | the three known kinds have their names; every other kind is "Unknown Device" |
| Smartwatch.ConnectDevice | src/hooks/useSmartwatch.ts:37-59 | connecting appends one connected device with the kind's name, synced now, battery between 60 and 99 |
| Smartwatch.Disconnect | src/hooks/useSmartwatch.ts:61-63 | disconnecting keeps exactly the devices with another id |
| Smartwatch.DisconnectAppend | src/hooks/useSmartwatch.ts:62 | disconnecting keeps the list order |
| Smartwatch.DisconnectAbsent | src/hooks/useSmartwatch.ts:62 | disconnecting an id no device has changes nothing |
| Smartwatch.ConnectThenDisconnect | src/hooks/useSmartwatch.ts:37-63 | disconnecting a freshly connected device with a new id restores the list |
| Smartwatch.HasConnectedDeviceIff | src/hooks/useSmartwatch.ts:139 | `hasConnectedDevice` holds exactly when some device is connected |
| Smartwatch.ConnectedAfterConnect | src/hooks/useSmartwatch.ts:37-59 | after a connection some device is connected |
| Smartwatch.StressLevelOf | src/hooks/useSmartwatch.ts:82-84 | high above 90 beats per minute, medium above 80, low otherwise |
| Smartwatch.GenerateHeartRate | src/hooks/useSmartwatch.ts:77-91 | a simulated heart rate lies between 55 and 84 and carries its own stress level |
| Smartwatch.GeneratedStressLevels | src/hooks/useSmartwatch.ts:78-84 | the simulation never reports high stress, and medium only for its top four draws |
| Smartwatch.ClockAt | src/hooks/useSmartwatch.ts:101-102 | the clock is the prefix and then two digits that read back to the minute |
| Smartwatch.GenerateSleep | src/hooks/useSmartwatch.ts:94-108 | bedtime is `23:mm` and wake-up `07:mm` with the drawn minutes, and the deep, light and REM shares lie in their documented ranges |
| Smartwatch.SliceFromEnd | src/hooks/useSmartwatch.ts:113 | `slice(-k)` is the last k elements, or all of them when fewer, and the whole list for k = 0 |
| Smartwatch.AppendBounded | src/hooks/useSmartwatch.ts:113 | appending to a bounded history ends with the new element after a suffix of the old history, at most keep + 1 long |
| Smartwatch.AppendBoundedIsWindow | src/hooks/useSmartwatch.ts:113 | appending to a bounded history is the last keep + 1 of the extended list |
| Smartwatch.SliceOfSlice | src/hooks/useSmartwatch.ts:113 | taking the same trailing window twice changes nothing |
| Smartwatch.AppendAllIsWindow | src/hooks/useSmartwatch.ts:111-120 | after any number of feed updates the history is the last keep + 1 of everything generated |
| Smartwatch.WindowOfWindow | src/hooks/useSmartwatch.ts:113 | trimming before or after appending more gives the same trailing window |
| Smartwatch.Latest | src/hooks/useSmartwatch.ts:129-136 | the latest reading is absent exactly for an empty history, and otherwise the last element |
| Smartwatch.HeartRateTick | src/hooks/useSmartwatch.ts:111-114 | a heart-rate update keeps at most 100 readings, makes the new one the latest, and touches nothing else |
| Smartwatch.SleepTick | src/hooks/useSmartwatch.ts:117-120 | a sleep update keeps at most 7 nights, makes the new one the latest, and touches nothing else |
| Smartwatch.BeginConnect | src/hooks/useSmartwatch.ts:38 | a connection attempt shows connecting and leaves the devices alone |
| Smartwatch.FinishConnect | src/hooks/useSmartwatch.ts:52-53 | a finished connection appends one device, leaves some device connected, and stops connecting |
| DeviceSettings.FindName | src/components/Profile/DeviceSettings.tsx:78 | the catalogue search finds nothing exactly when no entry has the kind, and otherwise the name of the first entry with it |
| DeviceSettings.FindNameIsFirst | src/components/Profile/DeviceSettings.tsx:78 | when several entries share a kind, the earliest one's name is found |
| DeviceSettings.CatalogueName | src/components/Profile/DeviceSettings.tsx:78 | the connected device's name is never empty: the catalogue name for a listed kind, "Unknown Device" for an unlisted one |
| DeviceSettings.CatalogueNameAgrees | src/components/Profile/DeviceSettings.tsx:34-53 | the panel's catalogue names agree with the smartwatch hook's names for every kind |
| DeviceSettings.HoursOfMinutes | src/components/Profile/DeviceSettings.tsx:110-117 | whole hours of whole minutes are whole hours of the elapsed time |
| DeviceSettings.FormatLastSync | src/components/Profile/DeviceSettings.tsx:108-120 | "just now" under a minute, minutes under an hour, hours otherwise, each count being the whole number elapsed |
| DeviceSettings.RenderSync | src/components/Profile/DeviceSettings.tsx:112-119 | a fresh sync reads "Just now" (or its Thai text); otherwise the caption is the count, a space, then the language's minutes or hours phrase |
| DeviceSettings.RenderSyncReadsBack | src/components/Profile/DeviceSettings.tsx:115-118 | the count in the caption reads back to the elapsed minutes or hours |
| DeviceSettings.HasKindIff | src/components/Profile/DeviceSettings.tsx:205 | the `some` scan finds a kind exactly when some listed device has it |
| DeviceSettings.ButtonLabelMatchesDisabled | src/components/Profile/DeviceSettings.tsx:205-213 | the button reads "Connect" exactly when it is enabled |
| DeviceSettings.PressConnect | src/components/Profile/DeviceSettings.tsx:70-71 | a disabled button does nothing; otherwise scanning starts for that kind |
| DeviceSettings.FinishConnect | src/components/Profile/DeviceSettings.tsx:74-92 | when the delay ends a device of the scanned kind is appended with the catalogue name and a battery of 60 to 99, and scanning stops |
| DeviceSettings.Disconnect | src/components/Profile/DeviceSettings.tsx:95-96 | disconnecting keeps exactly the devices with another id |
| DeviceSettings.Initial | src/components/Profile/DeviceSettings.tsx:55-68 | the panel opens with one Apple Watch at 85% battery and no scan |
| DeviceSettings.DistinctKindsIff | src/components/Profile/DeviceSettings.tsx:205 | the recursive one-device-per-kind check is the pairwise one |
| DeviceSettings.InitialOnePerKind | src/components/Profile/DeviceSettings.tsx:57-66 | the opening panel has at most one device per kind |
| DeviceSettings.DisconnectKeepsHasKind | src/components/Profile/DeviceSettings.tsx:96 | disconnecting never adds a kind |
| DeviceSettings.DisconnectKeepsDistinct | src/components/Profile/DeviceSettings.tsx:96 | disconnecting keeps kinds distinct |
| DeviceSettings.HasKindAppend | src/components/Profile/DeviceSettings.tsx:84 | an appended device adds exactly its own kind |
| DeviceSettings.AppendKeepsDistinct | src/components/Profile/DeviceSettings.tsx:84 | appending a device of a new kind keeps kinds distinct |
| DeviceSettings.StepKeepsOnePerKind | src/components/Profile/DeviceSettings.tsx:70-96 | every button press, connection or disconnection keeps at most one device per kind and the scanned kind unconnected |
| DeviceSettings.RunKeepsOnePerKind | src/components/Profile/DeviceSettings.tsx:70-205 | any run of panel events keeps at most one device per kind |
| Onboarding.Initial | src/pages/Onboarding.tsx:13-14 | the wizard opens on step 1 with the policy not accepted |
| Onboarding.SelectLanguage | src/pages/Onboarding.tsx:16-19 | choosing a language sets and stores it and moves to step 2 |
| Onboarding.PrivacyAccept | src/pages/Onboarding.tsx:21-27 | continuing from the privacy step moves to step 3 only with the policy accepted |
| Onboarding.Complete | src/pages/Onboarding.tsx:29-33 | finishing records `onboarding_completed` as `true`, keeps other storage, and leaves the wizard |
| Onboarding.ContinueDisabledIffRefused | src/pages/Onboarding.tsx:146-148 | the continue button is disabled exactly when the click would be refused |
| Onboarding.Step | src/pages/Onboarding.tsx:16-173 | each control acts only on its own step: the language buttons on step 1, the checkbox and continue on step 2 (continue is exactly the privacy handler, which moves on only with the box ticked and changes nothing else), finish on step 3; an event for another step, or any event once finished, changes nothing |
| Onboarding.StepKeepsReachable | src/pages/Onboarding.tsx:13-33 | every event keeps the step between 1 and 3, never goes back, and keeps the stored language, the acceptance and the completion record in step |
| Onboarding.RunKeepsReachable | src/pages/Onboarding.tsx:13-33 | any run of events keeps those facts and never lowers the step |
| Onboarding.FinishedMeansAcceptedAndStored | src/pages/Onboarding.tsx:16-33 | a finished wizard has accepted the policy, stored a valid code for the chosen language, and recorded completion |
| Onboarding.Progress | src/pages/Onboarding.tsx:40-46 | the progress bar has three segments |
| Onboarding.ProgressShowsStep | src/pages/Onboarding.tsx:40-46 | the lit segments are exactly the first `currentStep` ones, and no event turns one off |
| QaRuns.Settle | src/components/QualityAssurance/TestingUtils.tsx:105-114 | a check that returns true passes; one that returns false or throws fails |
| QaRuns.SetStatus | src/components/QualityAssurance/DeploymentChecker.tsx:148-150 | a status update sets the status of the rows with that id and leaves every other row, and every other field, unchanged |
| QaRuns.SetStatusTwice | src/components/QualityAssurance/DeploymentChecker.tsx:148-156 | of two updates to the same id, the second is what shows |
| QaRuns.SetStatusAbsent | src/components/QualityAssurance/TestingUtils.tsx:101-103 | updating an id no row carries changes nothing |
| QaRuns.RunAll | src/components/QualityAssurance/DeploymentChecker.tsx:145-164 | after a full run no row is pending or running, rows keep ids and contents, with unique ids each row shows its own outcome, and passed plus failed is the row count |
| QaRuns.RunStep | src/components/QualityAssurance/TestingUtils.tsx:97-114 | running the next row extends the settled prefix by one |
| QaRuns.Count | src/components/QualityAssurance/TestingUtils.tsx:146-147 | a status count never exceeds the number of rows |
| QaRuns.PassedFailedBound | src/components/QualityAssurance/TestingUtils.tsx:146-147 | the passed and failed counts together never exceed the number of rows |
| QaRuns.AllSettledCounts | src/components/QualityAssurance/DeploymentChecker.tsx:193-194 | when every row is settled, passed plus failed is the row count |
| QaRuns.CountZeroIff | src/components/QualityAssurance/DeploymentChecker.tsx:194 | a count is zero exactly when no row has that status |
| QaRuns.CountTwo | src/components/QualityAssurance/DeploymentChecker.tsx:194 | two distinct rows with a status make its count at least two |
| DeploymentChecker.CriticalCount | src/components/QualityAssurance/DeploymentChecker.tsx:195 | the critical count never exceeds the number of checks |
| DeploymentChecker.CriticalAtMostFailed | src/components/QualityAssurance/DeploymentChecker.tsx:194-195 | critical failures never outnumber failures |
| DeploymentChecker.NoCriticalIff | src/components/QualityAssurance/DeploymentChecker.tsx:195 | there is no critical failure exactly when every failed check is a warning or info |
| DeploymentChecker.ReadyIff | src/components/QualityAssurance/DeploymentChecker.tsx:197 | `IsReady` (`isDeploymentReady`) holds exactly when no two checks have failed and no failed check is an error |
| DeploymentChecker.TwoFailures | src/components/QualityAssurance/DeploymentChecker.tsx:194 | a failed count of two or more means two distinct failed checks |
| DeploymentChecker.FreshPanelReadsReady | src/components/QualityAssurance/DeploymentChecker.tsx:25-129 | before any run, the eight pending checks read ready with nothing passed |
| DeploymentChecker.InitialIdsUnique | src/components/QualityAssurance/DeploymentChecker.tsx:25-127 | the eight check ids are distinct |
| DeploymentChecker.ErrorChecksBlock | src/components/QualityAssurance/DeploymentChecker.tsx:195-197 | any failed error-severity check alone makes the build not ready |
| DeploymentChecker.IconOf | src/components/QualityAssurance/DeploymentChecker.tsx:169-179 | a failure shows a red cross exactly for errors and an orange warning otherwise; a pass shows the green check, a running check the blue pulse, a pending one the grey ring |
| DeploymentChecker.NoRedCrossIff | src/components/QualityAssurance/DeploymentChecker.tsx:169-195 | no red cross is on screen exactly when there is no critical failure |
| TestingUtils.InitialIdsUnique | src/components/QualityAssurance/TestingUtils.tsx:26-78 | the five test ids are distinct |
| TestingUtils.StatusBadgeInjective | src/components/QualityAssurance/TestingUtils.tsx:132-140 | `StatusBadge` (`getStatusBadge`) covers all four statuses and no two statuses share one |
| TestingUtils.IconOf | src/components/QualityAssurance/TestingUtils.tsx:123-130 | green check exactly for passed, red cross for failed, orange pulse for running |
| TestingUtils.IconMatchesBadge | src/components/QualityAssurance/TestingUtils.tsx:123-140 | the icon and the badge colour always agree |
| AbTesting.ToggleTest | src/components/QualityAssurance/ABTestingPanel.tsx:89-95 | toggling flips the switch of the matching tests only, keeps length and order, and changes no id, name, description, arm label or shown arm |
| AbTesting.ToggleTwice | src/components/QualityAssurance/ABTestingPanel.tsx:92 | toggling twice restores the list |
| AbTesting.SwitchVariant | src/components/QualityAssurance/ABTestingPanel.tsx:97-105 | switching swaps the shown arm of the matching tests only, keeps length and order, and changes no other field |
| AbTesting.SwitchTwice | src/components/QualityAssurance/ABTestingPanel.tsx:102 | switching twice restores the list |
| AbTesting.ToggleSwitchCommute | src/components/QualityAssurance/ABTestingPanel.tsx:89-105 | toggling and switching do not interfere with each other |
| AbTesting.ActiveTests | src/components/QualityAssurance/ABTestingPanel.tsx:139 | the active list holds exactly the switched-on tests |
| AbTesting.ActiveAppend | src/components/QualityAssurance/ABTestingPanel.tsx:139 | the active list keeps panel order |
| AbTesting.ActiveCount | src/components/QualityAssurance/ABTestingPanel.tsx:139-142 | the active list is as long as the number of switched-on tests |
| AbTesting.GenerateReport | src/components/QualityAssurance/ABTestingPanel.tsx:138-150 | the report counts all tests and the active ones, with one result per active test naming it and its shown arm |
| AbTesting.ReportKeepsOrder | src/components/QualityAssurance/ABTestingPanel.tsx:143 | the results follow panel order |
| AbTesting.ReportOfOne | src/components/QualityAssurance/ABTestingPanel.tsx:139-149 | a single test reports one line when on and none when off |
| AbTesting.FindTest | src/components/QualityAssurance/ABTestingPanel.tsx:112-113 | `find` fails exactly when no test has the id, and otherwise returns the first test with it |
| AbTesting.FindTestIsFirst | src/components/QualityAssurance/ABTestingPanel.tsx:112 | when several tests share an id, the one at the earliest position is found |
| AbTesting.FindAfterSwitch | src/components/QualityAssurance/ABTestingPanel.tsx:97-112 | after a switch, the found test is the old one with the other arm shown |
| AbTesting.ApplyVariant | src/components/QualityAssurance/ABTestingPanel.tsx:111-136 | the call-to-action buttons get the text of the found test's shown arm, the colour scheme gets blue for control and green for the variant, and an unknown test or any other experiment changes nothing |
| AbTesting.SwitchAsWritten | src/components/QualityAssurance/ABTestingPanel.tsx:97-112 | as written, the switch updates the list but applies the change for the list before the switch; for the colour scheme that is the theme of the arm the panel no longer shows |
| AbTesting.StaleThemeOnSwitch | src/components/QualityAssurance/ABTestingPanel.tsx:108-112 | as written, with the colour-scheme experiment switched on, switching it to its variant applies the blue theme while the panel shows the green variant |
| AbTesting.StaleTextOnSwitch | src/components/QualityAssurance/ABTestingPanel.tsx:108-124 | as written, with the button-text experiment switched on, switching it to its variant puts the control text back on the buttons while the panel shows the variant text |
| AbTesting.SwitchAndApply | src/components/QualityAssurance/ABTestingPanel.tsx:97-136 | corrected: the page change matches the arm the updated panel shows |
| AbTesting.SwitchAppliesNewTheme | src/components/QualityAssurance/ABTestingPanel.tsx:127-131 | corrected: switching the colour scheme applies the theme of the newly shown arm |
| AbTesting.SwitchAppliesNewText | src/components/QualityAssurance/ABTestingPanel.tsx:116-124 | corrected: switching the button-text experiment applies the text of the newly shown arm |
| PerformanceMonitor.PerformanceBadge | src/components/QualityAssurance/PerformanceMonitor.tsx:60-64 | green up to the first threshold, orange above it up to the second, red above both |
| PerformanceMonitor.BadgeMonotone | src/components/QualityAssurance/PerformanceMonitor.tsx:60-64 | with ordered thresholds, a larger value never gets a better badge |
| PerformanceMonitor.InvertedThresholdsSkipOrange | src/components/QualityAssurance/PerformanceMonitor.tsx:61-62 | with thresholds out of order, orange never shows |
| PerformanceMonitor.Badges | src/components/QualityAssurance/PerformanceMonitor.tsx:85-105 | load time is green to 2000 ms and red above 4000; render time green to 100 and red above 300; memory green to 50 MB and red above 100 |
| PerformanceMonitor.OverlayBadgesMonotone | src/components/QualityAssurance/PerformanceMonitor.tsx:85-105 | all three overlay badges only get worse as their measurements grow |
| Text.Lower | src/pages/Therapist.tsx:78 | lower-casing keeps the length and maps each character to its lower case |
| Text.LowerIdempotent | src/pages/AIChat.tsx:56 | lower-casing twice is lower-casing once |
| Text.ContainsAt | src/pages/AIChat.tsx:58 | `includes` holds exactly when the word starts at some position of the text |
| Text.ContainsEmpty | src/pages/Therapist.tsx:78 | every text includes the empty string |
| Text.TrimEmptyIffBlank | src/pages/AIChat.tsx:109 | `trim()` is empty exactly when the text is all whitespace |
| Text.NatToString | src/pages/Meditation.tsx:82 | a number prints as at least one digit, and as one digit exactly below 10 |
| Text.ParseNatToString | src/pages/Meditation.tsx:82 | a printed number reads back to itself |
| Text.PadStart | src/pages/Meditation.tsx:82 | `padStart` fills on the left up to the width and keeps the text as its suffix |
| Text.ParsePadded | src/hooks/useSmartwatch.ts:101 | a zero-padded number still reads back to itself |

## Left out

- Rendering, styling, icons other than the status icons, and toasts. Only
  the decisions behind them are modelled.
- The voice toggle and "save mood" in the chat. They only show toasts.
- The 1.5-second reply delay, the 2-second connection and payment delays,
  and the smartwatch intervals. Each is an explicit event, so any
  interleaving of events is covered but real durations are not.
- Text.Lower: Unicode case mapping is not modelled. It maps ASCII letters
  only; Thai has no case, so the mood words are unaffected.
- JavaScript property lookup on the translation and reply tables (inherited
  keys such as `constructor`). A table is a finite function from its listed
  keys.
- Floating-point values:
  - the sleep duration;
  - the meditation progress percentage;
  - the performance metrics' rounding, so metrics are integers.
- The smartwatch readings' time stamps (`HeartRateData.timestamp`,
  `SleepData.date`). They are the current clock when generated, and the
  model keeps clocks as parameters only where a decision reads them.
- `getDeviceIcon`, which returns one icon for every kind.
- `sendNotification` in the smartwatch hook, which only logs and resolves
  true.
- The smartwatch hook starts a new pair of intervals on every connection,
  and never stops them. Feed updates are events, so how many streams run is
  not modelled.
- The DOM queries and `fetch` calls inside the deployment checks and QA
  tests. Their results are the `Outcome` parameters of `QaRuns.RunAll`.
- The panels' keyboard shortcuts and visibility, and the development-mode
  guard.
- The reset on every visibility change. Each QA panel's effect depends on
  `isVisible` and installs a fresh list again
  (ABTestingPanel.tsx:76-87, TestingUtils.tsx:81-92,
  DeploymentChecker.tsx:129-140). Hiding and re-showing a panel therefore
  discards toggled experiments and run results. A toggle during a run puts
  every row back to pending, and the rows already run stay pending after
  the run ends. `QaRuns.RunAll`'s "no row pending" holds only for a run
  that no visibility change interrupts.
- The panel-wide `isRunning` flag of the deployment and test panels. It is
  set around a whole run and disables the run button meanwhile.
  `QaRuns.RunAll` is one atomic step in the model, so two runs cannot
  interleave there and the flag has nothing to prevent.
- The A/B report's conversions and engagement figures. They are random
  placeholders and appear only in the console; the report keeps name and
  shown arm.
- AbTesting.ApplyVariant: the call-to-action text is changed only on buttons
  that already have text. The model records the text applied, not which
  buttons receive it.
- The booking page's finish button and the chat's suggested-action buttons.
  They only navigate, and the navigation target is modelled
  (`SuggestedRoute`).
- The meditation page's mute button and complete button. They toggle a
  flag that nothing reads, or show a toast and navigate home.
- The interval's real timing relative to clicks. A tick is an event that
  the model delivers only while the timer is playing and short of the session length, which
  is when the effect keeps an interval alive.
- QaRuns.RunAll: the statuses are stated for unique ids. With duplicate ids
  only "everything settled" is proved, because the last outcome for an id
  overwrites earlier rows with that id.

## Findings

| source | as written | input that shows it | evidently intended | confidence | as-written member | corrected member |
|---|---|---|---|---|---|---|
| src/pages/Meditation.tsx:56-57 | `session.duration` is read before the `if (!session)` guard at line 107, so an unknown session id throws and the page crashes | `/meditation/478-breathing`, linked from the content page; also `/meditation/breathing` and `/meditation/gratitude`, the chat's suggested actions | show the "Session not found" screen for an unknown id | high; not executed | Meditation.UnknownSessionCrashes | Meditation.Open |
| src/components/QualityAssurance/ABTestingPanel.tsx:108-112 | `applyTestVariant` reads `tests` from the render before the `setTests` update, so it applies the arm shown before the switch | turn the "color-scheme" experiment on, then switch it from control: the panel shows the variant (green) but the page theme is set to blue; likewise "cta-button-text" puts "Start Now" on the buttons while the panel shows "Try Meditation" | apply the arm the panel shows after the switch | high; not executed | AbTesting.StaleThemeOnSwitch | AbTesting.SwitchAppliesNewTheme |
| src/pages/TherapistBooking.tsx:54-57 | the payment timer sets the confirmation step unconditionally | choose 09:00, continue, pay, go back and clear the date within two seconds: the confirmation appears with no date | confirm only while the payment step is still shown | medium; not executed | TherapistBooking.StaleTimerConfirmsWithoutDate | TherapistBooking.RunGuardedConfirmsBooked |
