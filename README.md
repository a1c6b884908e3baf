# React Native Upgrade Helper — selection state, in Dafny

This project models the page that shows the diff for upgrading a React Native app from one version to another. It covers three parts:

- **The page (`HomePage.Home`).** It holds the selected package (react-native, react-native-windows or react-native-macos), the native language (C++ or C#), the version pair and whether the diff is shown. It also holds the settings flags and the two-part app name: the text typed in the input, and the name the diff is rendered with. Each event handler of the page is a method of the class. Every call to `updateURL` is recorded, in order, in the ghost field `urlWrites`.
- **The settings popover (`Settings.SettingsPopover`).** It holds a pending package and language and whether it is open. When it closes, it decides whether to ask the page for a change, and with which values. `HomePage.Page` wires the popover into the page in the same way the page component renders it. This shows what a user action in the popover does to the page from end to end.
- **The comment reminder (`DiffCommentReminder.Render`).** This is a pure function from the hidden comments and the collapsed flag to the rendered reminder: whether it is visible, its animation variant, its label and its click handler.

The object invariant `HomePage.Home.Valid` is kept by every handler. It states four things:

- the diff is always rendered with a non-empty app name;
- the diff is shown exactly when the two versions differ;
- when no diff is shown, both versions are empty;
- the last URL write carries the current package and language.

## Behaviour kept as written

The popover keeps its pending choice after it closes. This has a consequence: when C# is pending on react-native-windows, every close of the popover sends a request to the page. The request flips the page's language between C# and C++, and it clears the version pair each time (`Settings.PendingCSharpTogglesLanguage`, `HomePage.SwitchToWindowsCSharpAndReclose`). The model keeps this behaviour exactly as the code has it.

Three more rules of the code:

- **Language normalisation.** Only the popover's close rule forces C++. The page's package and language handler takes the language it is given.
- **URL writes.** `handleShowDiff` does not call `updateURL`. Only a package or language change writes the URL from the page.
- **App-name fallback.** The default app name is applied when a diff is shown, not when the input is emptied. Editing the input leaves the diff's name as it was.

## Model

| member | source | states |
|---|---|---|
| `Settings.ProcessedLanguage` | src/components/common/Settings.js:42-45 | the processed language is C++ or the pending language. It is something other than C++ exactly when the pending package is react-native-windows and the pending language is a change and is not C++ |
| `Settings.CloseRequest` | src/components/common/Settings.js:47-56 | on close, the callback fires exactly when the pending package differs or the processed language differs. It always carries the processed language. It carries the package exactly when the package changed. Resolving an undefined package against the current one gives the pending package |
| `Settings.UnchangedCloseResetsToCpp` | src/components/common/Settings.js:42-55 | closing with the pending choice equal to the current one, while the language is not C++, still fires and asks for C++ with no package |
| `Settings.PendingCSharpTogglesLanguage` | src/components/common/Settings.js:42-55 | with C# pending on react-native-windows, every close fires, and the processed language is the opposite of the current one |
| `Settings.SettingsPopover.constructor` | src/components/common/Settings.js:35-37 | the popover starts closed, with the page's package and language pending |
| `Settings.SettingsPopover.SelectPackage` | src/components/common/Settings.js:74-76 | the package radio sets only the pending package; the pending language is untouched |
| `Settings.SettingsPopover.SelectLanguage` | src/components/common/Settings.js:88-91 | a C++/C# button sets the pending package to react-native-windows and the pending language to the chosen one |
| `Settings.SettingsPopover.SelectedLanguageButton` | src/components/common/Settings.js:81-87 | a language button is highlighted exactly when react-native-windows is pending, and then it is the pending language; choosing a language highlights that button, choosing another package clears it |
| `Settings.SettingsPopover.HandleClickChange` | src/components/common/Settings.js:39-57 | stores the visibility. Opening never calls back. Closing returns the request of `CloseRequest` for the page's current package and language |
| `HomePage.NormalizeSettings` | src/components/pages/Home.js:146-150 | the reduced object has exactly the checked names as keys, and each maps to true |
| `HomePage.Home.constructor` | src/components/pages/Home.js:82-97 | initial state: the package and language read from the URL, empty versions, no diff, the release-candidates setting stored as `false`, app name `{input: '', diff: DEFAULT_APP_NAME}`, no URL write |
| `HomePage.Home.HandleShowDiff` | src/components/pages/Home.js:108-121 | equal versions change nothing. Distinct versions are stored and the diff is shown. The typed name moves to the diff's name, or the default if nothing was typed, and the input is cleared. Package, language, settings and the URL are untouched, and `Valid` is kept |
| `HomePage.Home.EditAppName` | src/components/pages/Home.js:199-201 | typing changes only the input; the diff's name and every other field stay as they were |
| `HomePage.Home.HandlePackageNameAndLanguageChange` | src/components/pages/Home.js:123-144 | an undefined package or language keeps the current one, and a defined one replaces it. Versions are cleared and the diff hidden, whatever the prior state. One URL write is appended with the result, empty versions, and the load-time flag OR'd with "a package was supplied" |
| `HomePage.Home.HandleSettingsChange` | src/components/pages/Home.js:146-153 | the checked names replace the whole settings object, each true. The selector then receives `true` when the release-candidates checkbox is among the values, and `undefined` otherwise |
| `HomePage.Home.ShowReleaseCandidates` | src/components/pages/Home.js:207 | the value the version selector receives is the stored `SHOW_LATEST_RCS` setting when the key is present, and `undefined` (`None`) when it is missing |
| `HomePage.Page.constructor` | src/components/pages/Home.js:81-97 | the page and its popover mount with the same package and language; the popover is closed |
| `HomePage.Page.OpenSettings` | src/components/common/Settings.js:39-40 | opening the popover changes only its visibility; the page is untouched |
| `HomePage.Page.CloseSettings` | src/components/pages/Home.js:182-189 | after a close, the page has the pending package and the processed language, so a language other than C++ implies react-native-windows. The handler runs exactly when this is a change. When it runs, versions are cleared, the diff hidden and one URL write appended. Otherwise the page is unchanged |
| `HomePage.Page.UpdateCheckboxValues` | src/components/common/Settings.js:59-60 | the checkbox values reach the page's settings unchanged: exactly those names, each true |
| `HomePage.SwitchToWindowsCSharpAndReclose` | src/components/pages/Home.js:123-144 | choosing C# for react-native-windows while a react-native diff is shown writes `{react-native-windows, cs}` with empty versions. Reopening and closing with nothing changed writes `{react-native-windows, cpp}` |
| `DiffCommentReminder.Decimal` | src/components/common/Diff/DiffCommentReminder.js:28 | the count is rendered as a non-empty string of decimal digits that denote the count; it starts with `0` only when it is exactly `0` |
| `DiffCommentReminder.LeadingDigitsOfConcat` | src/components/common/Diff/DiffCommentReminder.js:28 | the digits at the start of a label are exactly the rendered count when a non-digit follows it |
| `DiffCommentReminder.Label` | src/components/common/Diff/DiffCommentReminder.js:27-29 | the count reads back from the start of the label, and the label ends in `s` exactly when the count exceeds one |
| `DiffCommentReminder.Render` | src/components/common/Diff/DiffCommentReminder.js:8-24 | the count is the number of keys of `comments`. The reminder is visible exactly when the diff is collapsed and there is a comment. The variant is `visible` exactly when the reminder is visible. The click handler is the `uncollapseDiff` prop in every case, visible or not |
| `DiffCommentReminder.CollapsedWithCommentsShowsCount` | src/components/common/Diff/DiffCommentReminder.js:9-10 | a collapsed diff with comments shows the reminder, and its label reads back as the number of comments |

## Left out

- Styling, layout and widget rendering (styled blocks, cards, popovers, radio and checkbox widgets, the header, logo and star button) are presentation.
- Analytics initialisation and the page view are I/O gated on the build environment.
- The URL hooks are not part of this model. What they read at load time is passed to the constructors. The hooks run again on every render, and a value they might then read differently is not modelled.
- The internals of `updateURL` are not part of this model. Each call is recorded as its argument, and no URL encoding or parsing round trip is claimed.
- `HomePage.Home.ShowReleaseCandidates`: the value is returned as the selector receives it, `undefined` included. How the version selector treats `undefined` is not modelled, because its source is not part of this model.
- The version selector and the diff viewer are not part of this model. A version pair reaches the page only through `HandleShowDiff`.
- The constants module and the utilities module are not part of this model. Their strings are taken as `RnDiffApp` and `Show latest release candidates`, and the proofs use only that the default app name is not empty.
- Languages are modelled as C++ and C# only. A different language string read from the URL is not modelled.
- React batches state updates and re-renders between events. The model runs each handler to completion on the state of the previous event. Stale closures over an earlier render are not modelled.
- `HomePage.NormalizeSettings`: checked names are treated as plain map keys. Special JavaScript object keys such as `__proto__` are not modelled.
- `DiffCommentReminder.Render`: the animation duration is a floating-point value and is left out. The `isVisible > 0` comparison on a boolean is modelled as the boolean itself.
- The troubleshooting-guides button is left out. Its toggle depends on the event-loop ordering of a zero-delay timer.
- The markdown component, the diff view-style switch and the download button are left out. They only configure or forward to code that is not part of this model.
