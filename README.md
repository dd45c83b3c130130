# FearlessYou challenge progression, in Dafny

FearlessYou is a one-screen SwiftUI app for a "30 days of rejection" challenge.
The home screen shows a grid of days. A confirmed tap on a day not yet completed
opens a popup titled `Challenge <day>: <text>`. In the popup the user accepts the
challenge, which starts a 24-hour countdown, or rejects it, which costs a coin.
Submitting an accepted challenge earns one coin and records the day as completed.
The set of completed days is saved to the key-value store under
`"EarnedCoinsChallenges"` when the popup disappears.

This project models that logic, all of it in `FearlessYou/ContentView.swift`:

- `decimal.dfy` (module `Decimal`): Swift's decimal text of an `Int` and the value of a run of ASCII digits.
- `catalog.dfy` (module `Catalog`): the 29-entry `challenges` array, the day grid and the popup title.
- `challenge_number.dfy` (module `ChallengeNumber`): `extractChallengeNumber`.
- `time_format.dfy` (module `TimeFormat`): `formatTime`, with Swift's truncating `/` and `%` and `%02d` padding.
- `progress.dfy` (module `Progress`): the popup's rules as functions on a `Popup` snapshot. It also defines runs of events, with and without the screen's button guards, and the lemmas about them.
- `persistence.dfy` (module `Persistence`): the Set→Array→Set conversion of the save and load.
- `views.dfy` (module `Views`): the classes `ContentView` and `ChallengePopup`, whose methods update fields in place. The popup's `@Binding` variables (`coins`, `completedChallenges`) are the home screen's own fields, reached through the popup's `host`. Every popup method except `StartTimer` ensures `Snapshot() == Progress.<rule>(old(Snapshot()))`; `StartTimer` only counts one more timer. Every popup method keeps the invariant `Valid()`, which is `Progress.Inv` of the snapshot.
- `wrappers.dfy` (module `Wrappers`): `Option` and `Result`.

The model follows the code, including these behaviours:

- The catalog has 29 entries, not 30.
- Submitting requires neither an accepted challenge nor a running countdown in the code. Only the screen hides the Submit button until then.
- Accepting toggles `isAccepted` rather than being idempotent. The screen hides the Accept button once the challenge is accepted.
- Rejecting has no precondition. It can be repeated, costing a coin each time.
- The timer is never invalidated. Reaching zero only hides the countdown, and each accept schedules one more timer.
- The completed set is saved only when the popup disappears, and it is never loaded back: `loadEarnedCoinsChallenges` has no caller. The coin balance is never saved.

## Model

| member | source | states |
|---|---|---|
| Decimal.Dec | FearlessYou/ContentView.swift:33 | the interpolated text of a non-negative day is all digits, exactly one below 10 and without a leading zero from 10 up, and reads back as the day; a negative one is `-` followed by the digits of its magnitude |
| Decimal.NatDigits | FearlessYou/ContentView.swift:33 | the digits of a natural number are non-empty ASCII digits, without a leading zero from 10 up, and one digit exactly below 10 |
| Decimal.ParseDigits | FearlessYou/ContentView.swift:247 | `Int(...)` on k digits gives a natural number below 10^k |
| Decimal.ParseNatDigits | FearlessYou/ContentView.swift:247 | reading the digits of `n` with `Int(...)` gives `n` |
| Decimal.ParseLeadingZero | FearlessYou/ContentView.swift:227 | a zero-padding digit does not change the value read back |
| Catalog.Title | FearlessYou/ContentView.swift:33 | the title is `Challenge `, then the day's decimal text, then `: ` and the challenge text, and nothing else |
| Catalog.ChallengeAt | FearlessYou/ContentView.swift:33 | the lookup `challenges[day - 1]` as written: defined only for days 1 to 29, and yields a catalog text |
| Catalog.GridDayThirtyOutOfRange | FearlessYou/ContentView.swift:30-33 | day 30 is in the grid `1..<31`, but the catalog has only 29 entries, so the lookup is out of range |
| Catalog.Describe | FearlessYou/ContentView.swift:340-370 | the lookup succeeds exactly for days 1 to 29 and yields a catalog text; otherwise it is `OutOfRange(day)` |
| Catalog.CatalogGridDescribed | FearlessYou/ContentView.swift:340-370 | every day of a grid sized from the catalog is described by its own catalog entry |
| ChallengeNumber.SkipToDigit | FearlessYou/ContentView.swift:246 | the search for `\d+` starts at the first digit: no digit precedes it, and the rest is empty or starts with a digit |
| ChallengeNumber.DigitRun | FearlessYou/ContentView.swift:246 | the match is the longest run of digits: the next character, if any, is not a digit |
| ChallengeNumber.ExtractChallengeNumber | FearlessYou/ContentView.swift:245-251 | the result is between 0 and the largest `Int`, and 0 for a text with no digit |
| ChallengeNumber.SkipToDigitAt | FearlessYou/ContentView.swift:246 | the search lands on the first digit of the text |
| ChallengeNumber.DigitRunAt | FearlessYou/ContentView.swift:246 | the match is exactly the maximal digit run starting there |
| ChallengeNumber.FirstRunExtracted | FearlessYou/ContentView.swift:245-251 | the result is the value of the first maximal run of digits, or 0 when that overflows `Int` |
| ChallengeNumber.TitleRoundTrip | FearlessYou/ContentView.swift:33 | reading the number from the title `Challenge <day>: <text>` gives back the day, whatever the text |
| TimeFormat.Quot | FearlessYou/ContentView.swift:224 | Swift's `/`: quotient times divisor plus Swift's remainder is the dividend |
| TimeFormat.Rem | FearlessYou/ContentView.swift:225-226 | Swift's `%`: the remainder lies in `[0, b)` for a non-negative dividend and in `(-b, 0]` for a negative one |
| TimeFormat.RemHourThenMinute | FearlessYou/ContentView.swift:225-226 | taking the remainder by 3600 first does not change the remainder by 60 |
| TimeFormat.Split | FearlessYou/ContentView.swift:223-226 | hours·3600 + minutes·60 + seconds equals the input; minutes and seconds lie in [0, 59] for a non-negative input, and in [-59, 0] otherwise |
| TimeFormat.Pad2 | FearlessYou/ContentView.swift:227 | `%02d` turns 0 to 99 into exactly two digits that read back as the value; anything else keeps at least two characters; `formatTime` never passes such a value |
| TimeFormat.FormatTime | FearlessYou/ContentView.swift:223-228 | below 100 hours the text is exactly 8 characters, `HH:MM:SS`, each field two digits; the fields read back as the hours, the minutes and the seconds of the duration, minutes and seconds below 60 |
| TimeFormat.FormatTimeRoundTrip | FearlessYou/ContentView.swift:223-228 | below 100 hours, the full 86400-second countdown included, the clock text reads back as the same number of seconds |
| TimeFormat.FormatTimeInjective | FearlessYou/ContentView.swift:223-228 | two different durations below 100 hours never show the same text |
| Progress.Presented | FearlessYou/ContentView.swift:93-100 | a freshly presented popup satisfies the popup invariant exactly when the shared balance is non-negative |
| Progress.Accept | FearlessYou/ContentView.swift:209-213 | accepting flips `isAccepted`, shows the countdown with its Submit button, hides Accept and Reject, schedules one more timer and changes nothing else |
| Progress.Reject | FearlessYou/ContentView.swift:215-221 | rejecting takes one coin if there is one, leaving the balance at max(0, coins − 1); the no-coins notice is raised exactly when the balance was 0; nothing else changes, the completed set included |
| Progress.Submit | FearlessYou/ContentView.swift:196-207 | submitting adds the popup's day unless this popup already submitted; a coin is paid exactly when the set grew; the popup is marked complete exactly when it was, or the day was new; nothing else changes |
| Progress.PressSubmit | FearlessYou/ContentView.swift:122-128 | a press after submitting changes nothing; a first press submits and flips the feedback sheet |
| Progress.StopTimer | FearlessYou/ContentView.swift:241-243 | stopping only hides the countdown and its Submit button |
| Progress.CloseFeedback | FearlessYou/ContentView.swift:299-302 | closing the feedback form, by its Submit button or a swipe, clears `showFeedbackPopup` (the form's `isPresented` binding, line 181) and nothing else |
| Progress.Tick | FearlessYou/ContentView.swift:231-237 | one firing takes a second off while time is left and otherwise leaves 0; the countdown stays shown exactly when time was left; nothing else changes |
| Progress.TicksCountDown | FearlessYou/ContentView.swift:231-237 | from any remaining time t, the 86400 of line 95 included, after n firings the remaining time is max(0, t − n); the countdown is still shown exactly when it was shown and n ≤ t; nothing else changes |
| Progress.Step | FearlessYou/ContentView.swift:122-243 | every action on the popup keeps the invariant: non-negative balance, remaining time within [0, 86400], complete only when the day is recorded |
| Progress.Run | FearlessYou/ContentView.swift:122-243 | any sequence of actions keeps that invariant |
| Progress.RunRewardsOnce | FearlessYou/ContentView.swift:196-221 | whatever the user and the timer do, the balance stays non-negative; the completed set only grows, and only by the popup's own day; at most one coin is paid, and none for a day already recorded |
| Progress.ScreenRunAcceptsOnce | FearlessYou/ContentView.swift:110-166 | when only shown buttons are pressed, a challenge is accepted once and stays accepted; exactly one timer is scheduled; nothing is submitted before accepting |
| Progress.RunStepsOnce | FearlessYou/ContentView.swift:110-166 | one action taken through the screen keeps the screen invariant and keeps an accepted challenge accepted |
| Progress.PresentedOnScreen | FearlessYou/ContentView.swift:93-100 | a freshly presented popup with a non-negative balance satisfies both invariants |
| Progress.LapsedPopupIsStuck | FearlessYou/ContentView.swift:110-166 | once an accepted countdown has run out, no popup button is shown: a further firing changes nothing, and the only other action is closing a feedback form still open |
| Progress.FeedbackFormOnce | FearlessYou/ContentView.swift:122-128 | the first paying press of Submit opens the feedback form; once it is closed, pressing Submit again changes nothing and does not reopen it |
| Progress.CompletedDayStaysClosed | FearlessYou/ContentView.swift:196-207 | a completed day stays completed whatever a popup does, so `isChallengeAccepted` (lines 51-53) keeps it closed |
| Progress.SubmitIdempotent | FearlessYou/ContentView.swift:122-124 | submitting twice is submitting once; a second press of the Submit button changes neither the balance nor the completed set |
| Persistence.ArrayOf | FearlessYou/ContentView.swift:260 | `Array(set)` lists each day of the set exactly once |
| Persistence.SetOf | FearlessYou/ContentView.swift:255 | `Set(array)` holds exactly the array's elements, and as many as the array when it has no duplicate |
| Persistence.Loaded | FearlessYou/ContentView.swift:253-257 | loading replaces the set with the stored array's elements; a missing or mistyped value keeps the current set |
| Persistence.SaveLoadRoundTrip | FearlessYou/ContentView.swift:253-262 | loading what was saved gives back the saved set |
| Persistence.LoadIgnoresOrder | FearlessYou/ContentView.swift:255 | two stored arrays holding the same days, in any order and with any repeats, load to the same set |
| Views.ContentView.constructor | FearlessYou/ContentView.swift:4-7 | the home screen starts with no popup, an empty title, no coins and no completed day |
| Views.ContentView.TapDay | FearlessYou/ContentView.swift:30-35 | a completed day (`isChallengeAccepted`, lines 51-53) changes nothing; any other catalog day gets the title whose number reads back as the day, and flips the popup; a day outside the catalog is `OutOfRange` and changes nothing |
| Views.ChallengePopup.constructor | FearlessYou/ContentView.swift:89-100 | given a non-negative balance, the popup takes the selected title, binds to the home screen, starts with every flag off and the full countdown, and satisfies `Valid()` |
| Views.ChallengePopup.SubmitChallenge | FearlessYou/ContentView.swift:196-207 | the popup and the bound balance and set change as `Progress.Submit` says |
| Views.ChallengePopup.PressSubmit | FearlessYou/ContentView.swift:122-128 | the state changes as `Progress.PressSubmit` says |
| Views.ChallengePopup.AcceptChallenge | FearlessYou/ContentView.swift:209-213 | the state changes as `Progress.Accept` says |
| Views.ChallengePopup.StartTimer | FearlessYou/ContentView.swift:230-239 | one more repeating timer is scheduled |
| Views.ChallengePopup.RejectChallenge | FearlessYou/ContentView.swift:215-221 | the state changes as `Progress.Reject` says |
| Views.ChallengePopup.TimerFired | FearlessYou/ContentView.swift:231-237 | the state changes as `Progress.Tick` says |
| Views.ChallengePopup.CloseFeedback | FearlessYou/ContentView.swift:299-302 | the state changes as `Progress.CloseFeedback` says |
| Views.ChallengePopup.StopTimer | FearlessYou/ContentView.swift:241-243 | the state changes as `Progress.StopTimer` says |

## Left out

- View bodies, layout, styling, alerts and sheets (lines 10-49, 62-86, 102-190). The model keeps only the conditions that decide which popup buttons are shown (`ShowsDecisionButtons`, `ShowsSubmitButton`).
- The confirmation alert of a grid box (lines 79-85): `TapDay` models the tap after "Yes".
- Dismissing the sheet, and the `onDisappear` save it triggers (lines 176-178). These are framework events. The save's data conversion is `Persistence.ArrayOf`.
- `UserDefaults` itself is a foreign key-value store. The model covers only the conversion of the stored value.
- `FeedbackPopupView` and `FeelingButton` (lines 265-338): the feeling buttons and the text field only copy a string into a binding, and the feedback is never used. The chosen feeling and the text are not modelled. Opening and closing the form are: `showFeedbackPopup` is flipped by Submit and cleared by `CloseFeedback` (the form's own Submit button at lines 299-302, or a swipe).
- `showChallengeAlreadySubmittedAlert` (lines 192-194) only prints. It is a no-op in `PressSubmit`.
- Timer scheduling, real time and the run loop (lines 230-239): a firing is a call of `TimerFired`. The timers still running are counted in `timers`, but they are not simulated.
- The `StoryStore` environment object (line 8) is not part of this model; its type is not in the file. The preview provider (lines 373-378) is also out.
- ChallengeNumber.ExtractChallengeNumber: recognises only ASCII digits, whereas the regular expression `\d` also matches other Unicode decimal digits, which `Int(...)` then rejects.
- Progress.Submit: the balance is an unbounded integer, so the overflow trap of `coins += 1` at `Int.max` is not modelled.
- TimeFormat.FormatTime: `%02d` is modelled on the value as given. How `String(format:)` passes a 64-bit `Int` to `%d` is not modelled; every value it formats here is below 100.

## Findings

| source | as written | input that shows it | evidently intended | confidence | as-written member | corrected member |
|---|---|---|---|---|---|---|
| FearlessYou/ContentView.swift:30-33 | the grid yields days 1 to 30 (`ForEach(1..<31)`), and the tap handler reads `challenges[day - 1]` from an array of 29 entries (lines 340-370) | confirming a tap on day 30 indexes `challenges[29]`, which is out of range | every day in the grid has a catalog entry: a 30th challenge text, or a grid sized from the catalog | high; not executed | Catalog.GridDayThirtyOutOfRange | Catalog.CatalogGridDescribed |

The corrected lookup `Catalog.Describe` returns `OutOfRange` instead of trapping. `Views.ContentView.TapDay` uses it, so in the model a tap on day 30 opens nothing.
