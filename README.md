# HNS app: the client-side rules, modelled in Dafny

The HNS app is a React Native client for a vehicle-service and loyalty
programme. Most of it is presentation. This project models the parts that
decide something:

- **Oil maintenance card** (`oil_maintenance.dfy`, module `OilMaintenance`).
  From the current odometer, the odometer at the last service and the service
  interval, the card derives:
  - the odometer reading at which the next service is due;
  - the distance left until then;
  - the share of the interval already driven, clamped to [0, 1];
  - the rounded "% Life Remaining";
  - a Good / Due Soon / Critical badge;
  - the width of the progress bar, which never drops below 5%.

  JavaScript's `Math.round` is modelled as `floor(x + 1/2)` (module `JsMath`).
- **Launch redirect** (`launch.dfy`, module `Launch`). The app's entry screen
  shows a spinner while authentication or the onboarding flag is loading.
  After that it redirects to exactly one of three places: onboarding, the main
  tabs, or login.
- **Onboarding flag** (`onboarding_status.dfy`, module `OnboardingStatus`). A
  hook keeps a nullable "completed" flag and a loading flag. Behind them is the
  device's key-value storage, under the key `onboarding_completed`. The hook
  offers three operations: check, complete and reset. Every hook instance
  keeps its own state, but all instances share one storage. So the storage is
  a class `AsyncStore`, and each `OnboardingStatusHook` holds a reference to it.
- **Onboarding screen** (`onboarding_screen.dfy`, module `OnboardingScreen`).
  It shows three slides. The screen tracks:
  - the current slide index;
  - the scroll requests it has sent to the slide list;
  - the routes it has sent to the router.

  The primary button's label and arrow, and the active pagination dot, all
  follow from the index.
- **Alert controller** (`custom_alert.dfy`, module `CustomAlert`). One dialog
  state holds visibility and a configuration: title, message, type and
  buttons. `showAlert` does three things:
  - it supplies a lone OK button when the caller gives none;
  - it wraps every button so that pressing it runs the caller's callback and
    then closes the dialog;
  - it stores the configuration and shows the dialog.

  `hideAlert` only hides the dialog. `useCustomAlert` fails outside a provider.

`wrappers.dfy` (Option, Result, JavaScript truthiness of a nullable boolean)
and `routes.dfy` (the router destinations) are shared by these modules.

Effects outside the app are parameters or recorded outputs:

- **Storage failures.** Each storage call takes a `fails` flag. A failed call
  takes the hook's catch branch.
- **Scroll requests and route replacements.** They are appended to sequences on
  the screen object.
- **Callers' alert callbacks.** They are opaque identifiers. Running one
  appends its identifier to a record on the provider.

## Model

| member | source | states |
|---|---|---|
| `JsMath.Round` | components/OilMaintenanceCard.tsx:27 | the result is the integer nearest to x, halves going up: x − ½ < r ≤ x + ½ |
| `JsMath.Min` | components/OilMaintenanceCard.tsx:26 | Math.min of two numbers: the result is at most each argument and is one of them |
| `JsMath.Max` | components/OilMaintenanceCard.tsx:26-27 | Math.max of two numbers: the result is at least each argument and is one of them |
| `OilMaintenance.NextServiceOdo` | components/OilMaintenanceCard.tsx:23 | the next service is due exactly one interval past the last service, so strictly after it |
| `OilMaintenance.RemainingDistance` | components/OilMaintenanceCard.tsx:24-25 | the distance left plus the current reading is the next-service reading; it is ≤ 0 exactly when the current reading has reached the next-service reading |
| `OilMaintenance.Progress` | components/OilMaintenanceCard.tsx:24-26 | progress lies in [0, 1]; it is 0 at or before the last service and 1 at or past the next one; in between, progress × interval is the distance driven |
| `OilMaintenance.PercentRemaining` | components/OilMaintenanceCard.tsx:27 | the percentage lies in [0, 100] and equals round((1 − progress) × 100), so the outer max(0, …) never acts; it is 100 at progress 0 and 0 at progress 1 |
| `OilMaintenance.Classify` | components/OilMaintenanceCard.tsx:29-42 | Critical exactly when percent ≤ 10, Due Soon exactly when 10 < percent ≤ 25, Good exactly when percent > 25; the three cases are exclusive and cover every percentage |
| `OilMaintenance.StatusText` | components/OilMaintenanceCard.tsx:30-42 | the badge reads "Critical" exactly for Critical, "Due Soon" exactly for Due Soon and "Good" exactly for Good, so the three labels are distinct |
| `OilMaintenance.BadgeTextThresholds` | components/OilMaintenanceCard.tsx:30-42 | the badge text for a percentage is "Critical" exactly when it is ≤ 10, "Due Soon" exactly when it is above 10 and ≤ 25, and "Good" exactly when it is above 25 |
| `OilMaintenance.BarWidth` | components/OilMaintenanceCard.tsx:68 | the bar width lies in [5, 100]; it is never narrower than the unrounded life left, and equals it whenever that is at least 5; below that it is exactly 5 |
| `OilMaintenance.Compute` | components/OilMaintenanceCard.tsx:23-42 | for any readings with a positive interval, the card's percentage is in [0, 100], its badge is the classification of that percentage, and its bar width is in [5, 100] |
| `OilMaintenance.ProgressMonotone` | components/OilMaintenanceCard.tsx:24-26 | with the last service and the interval fixed, a higher current reading never gives a lower progress |
| `OilMaintenance.PercentRemainingMonotone` | components/OilMaintenanceCard.tsx:24-27 | with the last service and the interval fixed, a higher current reading never gives a higher percentage remaining |
| `OilMaintenance.StatusMonotone` | components/OilMaintenanceCard.tsx:24-42 | with the last service and the interval fixed, a higher current reading never gives a better badge (Good, then Due Soon, then Critical) |
| `OilMaintenance.Endpoints` | components/OilMaintenanceCard.tsx:23-68 | at or before the last service the card shows 100% and Good; at or past the due reading it shows 0%, Critical and the minimum 5% bar |
| `Routes.Path` | app/index.tsx:21-31 | every destination's path is an absolute path starting with "/" |
| `Routes.PathInjective` | app/onboarding.tsx:45-54 | two destinations have the same path exactly when they are the same destination ("/onboarding", "/(drawer)/(tabs)", "/(auth)/login" and the back button's "/login" are all distinct) |
| `Launch.Decide` | app/index.tsx:12-31 | spinner exactly when auth is not loaded or the onboarding flag is loading; once loaded: onboarding exactly when the flag is not true (false or null), even if signed in; main tabs exactly when completed and signed in; login exactly when completed and not signed in; never the bare "/login" route |
| `Launch.LaunchAfterMount` | app/index.tsx:8-31 | after the hook's mount-time check, with auth loaded, the app goes to onboarding exactly when storage lacks "true" under the key or the read failed; otherwise to main tabs or login by sign-in state |
| `OnboardingStatus.GetItem` | hooks/useOnboardingStatus.ts:16 | a storage read yields a value exactly when the key is present, and then the stored string; a missing key yields null |
| `OnboardingStatus.SetThenCheck` | hooks/useOnboardingStatus.ts:14-29 | after "true" is stored under the key, a successful check reads "completed"; every other key keeps its value |
| `OnboardingStatus.RemoveThenCheck` | hooks/useOnboardingStatus.ts:14-38 | after the key is removed, no check reads "completed"; every other key keeps its value |
| `OnboardingStatus.OnboardingStatusHook.constructor` | hooks/useOnboardingStatus.ts:7-8 | a new hook starts with the flag null and loading true, over the given storage |
| `OnboardingStatus.OnboardingStatusHook.CheckOnboardingStatus` | hooks/useOnboardingStatus.ts:14-24 | after a check the flag is true exactly when the read succeeded and found the string "true"; a failed read gives false; loading is false either way; storage is unchanged |
| `OnboardingStatus.OnboardingStatusHook.CompleteOnboarding` | hooks/useOnboardingStatus.ts:26-33 | on success, storage gains "true" under the key and the flag becomes true; on failure, storage and flag are unchanged; loading is untouched |
| `OnboardingStatus.OnboardingStatusHook.ResetOnboarding` | hooks/useOnboardingStatus.ts:35-42 | on success, the key is removed from storage and the flag becomes false; on failure, storage and flag are unchanged; loading is untouched |
| `OnboardingStatus.CompleteThenRemount` | hooks/useOnboardingStatus.ts:10-42 | after a successful complete, a hook mounted later on the same storage reads true; after a complete and then a successful reset it reads false; a failed read gives false |
| `OnboardingScreen.PrimaryLabel` | app/onboarding.tsx:198-200 | the label is "Let's Get Started" exactly on the last slide (index 2) and "Next" exactly on any other index |
| `OnboardingScreen.ShowsArrow` | app/onboarding.tsx:201-205 | the arrow shows exactly when the label is "Let's Get Started" |
| `OnboardingScreen.ActiveDots` | app/onboarding.tsx:158-166 | there is one dot per slide, and dot i is active exactly when i is the current index |
| `OnboardingScreen.ExactlyOneActiveDot` | app/onboarding.tsx:158-166 | for an index in 0..2 exactly one dot is active, the one at the index; for any other index none is |
| `OnboardingScreen.SettledIndex` | app/onboarding.tsx:181-184 | the settled index is the offset measured in screen widths, rounded to the nearest integer |
| `OnboardingScreen.Screen.constructor` | app/onboarding.tsx:34-37 | the screen starts on slide 0, with no scroll requests and no navigations, and with a fresh hook of its own in its initial state |
| `OnboardingScreen.Screen.HandleNext` | app/onboarding.tsx:39-49 | before the last slide it records a scroll request to index + 1 and touches neither the flag, storage nor the router; from the last slide on it completes onboarding (on success storage gains "true" under the key and the hook's flag becomes true; on a failed write storage and flag are unchanged) and then records a replace to "/(auth)/login"; the index never changes |
| `OnboardingScreen.Screen.HandleSkip` | app/onboarding.tsx:51-54 | from any slide it completes onboarding (on success storage gains "true" and the hook's flag becomes true; on a failed write storage and flag are unchanged) and then records a replace to "/(auth)/login"; index and scroll requests are unchanged |
| `OnboardingScreen.Screen.HandleBack` | app/onboarding.tsx:152-155 | records a replace to "/login" and changes nothing else, so the onboarding flag and storage stay as they were |
| `OnboardingScreen.Screen.OnMomentumScrollEnd` | app/onboarding.tsx:181-184 | the index becomes the settled index of the scroll offset; scroll requests and navigations are unchanged |
| `OnboardingScreen.WalkThrough` | app/onboarding.tsx:39-49 | from slide 0, three presses of the primary button (each scroll settling on its page) give scroll requests [1, 2], a single replace to login, and storage that a later check reads as completed |
| `CustomAlert.Run` | components/CustomAlertContext.tsx:55-61 | running a callback only appends to the record of callers' callbacks; a wrapped callback always ends with the dialog hidden; a caller's callback appends its own identifier and leaves visibility alone |
| `CustomAlert.TypeOrInfo` | components/CustomAlertContext.tsx:42 | the stored type is the given type, or info when it is omitted |
| `CustomAlert.WithDefault` | components/CustomAlertContext.tsx:46-48 | a non-empty button list is kept as it is; an empty one becomes a single button with text "OK" and style default |
| `CustomAlert.Wrap` | components/CustomAlertContext.tsx:55-61 | wrapping keeps the number of buttons and each button's text and style, in order, and makes each callback "run the original, then hide" |
| `CustomAlert.StoredActions` | components/CustomAlertContext.tsx:46-61 | the stored list has one button (OK, default style) when none are given, and otherwise as many as given, with the same texts and styles in the same order |
| `CustomAlert.PressStoredAction` | components/CustomAlertContext.tsx:55-61 | pressing any stored button has the effect of the original button followed by hiding the dialog, so the dialog ends hidden; the default OK button runs no caller's callback |
| `CustomAlert.AlertProvider.constructor` | components/CustomAlertContext.tsx:25-36 | the initial state is hidden, with empty title and message, type info and no buttons |
| `CustomAlert.AlertProvider.ShowAlert` | components/CustomAlertContext.tsx:38-72 | the dialog becomes visible, storing the given title and message, the given type or info, and the defaulted, wrapped buttons; no callback runs |
| `CustomAlert.AlertProvider.HideAlert` | components/CustomAlertContext.tsx:74-76 | the dialog becomes hidden, and the stored configuration is unchanged |
| `CustomAlert.AlertProvider.PressAction` | components/CustomAlertContext.tsx:55-61 | pressing a shown button applies that button's callback to visibility and to the record of run callbacks; the configuration is unchanged |
| `CustomAlert.ShowThenPress` | components/CustomAlertContext.tsx:38-76 | showing an alert and then pressing one of its buttons leaves the dialog hidden, with the given title and message stored; it runs exactly the caller's callback for that button, and nothing for the default OK button |
| `CustomAlert.UseCustomAlert` | components/CustomAlertContext.tsx:93-99 | outside a provider the lookup fails with the fixed message; inside one it returns that provider |

## Left out

- **Floating point.** Odometer readings, the interval, the scroll offset and
  the screen width are exact reals, not IEEE-754 doubles. `Math.round` ties
  can therefore differ from the doubles the app computes. NaN and infinities
  are not modelled.
- **Zero and negative inputs.** The oil card requires a positive service
  interval. A zero interval would make the card divide by zero, and a negative
  interval has no meaning as a service interval, so both are excluded.
  `OnMomentumScrollEnd` requires a positive screen width, because it divides
  by the width.
- **Number formatting.** `toLocaleString()` for the odometer labels is not
  modelled.
- **Colours and icons.** The badge's colour and icon, and everything visual,
  are not modelled. The badge text is `OilMaintenance.StatusText`.
- **Asynchrony.** Storage calls are awaited promises in the app. Here each
  call completes in one step, succeeding or failing by its `fails` flag. The
  error logging in the catch branches is not modelled.
- **Hook mounting.** The mount-time check is a separate call,
  `CheckOnboardingStatus`. The onboarding screen's own hook never runs it in
  this model, because the screen never reads the flag.
- **Navigation and scrolling.** Router navigation and the slide list's
  scrolling are recorded requests. The animation and the scroll that follows a
  request are not modelled. The index changes only when
  `OnMomentumScrollEnd` is called. The app sends its scroll request through an
  optional reference to the list, so no scroll happens while that reference is
  still null. The model assumes the list is mounted and always records the
  request.
- **Caller callbacks.** A caller's callback is an opaque identifier, so a
  callback that itself calls `showAlert` or `hideAlert` is not modelled.
  Neither is the optional-call guard `onPress?.()`: the button type makes
  `onPress` mandatory. The dialog component is not part of this model. It
  passes `hideAlert` to the modal only as the handler for the system back
  action; that path is `HideAlert` here.
- **The rest of the app.** Animations and gestures, the profile editor, the
  loyalty modal's copy and share actions, the biometric prompts, style
  constants, and the wrappers around the identity provider and the browser
  are presentation or calls into external SDKs.
