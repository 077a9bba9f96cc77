# Portfolio front end: a Dafny model of its UI state machines

This project models the state-holding logic of a single-page React portfolio
site: the application root (theme token, visitor preferences, a one-shot
loading gate), the project gallery's category filter, the contact form's
submission flow, the first-visit preference dialog, the home page's dialog
gate, the navigation bar's flags and link highlighting, and the admin page's
message list. Everything else in the site is markup, styling and animation.

Each component is a Dafny module with the component's own name. State that a
component keeps with `useState` and overwrites in its handlers is a `class`
whose methods are those handlers, with `modifies` clauses and postconditions
that give the whole new state in terms of the old one. The expressions the
handlers compute (the object-spread merge, the list filter, the view choice,
the trim of a name) are functions with their own contracts, and lemmas relate
them. Asynchronous steps are split into explicit events:

- the outcome of an HTTP call is a method of its own (`PostSucceeded` and
  `PostFailed`, `FetchSucceeded` and `FetchFailed`);
- the expiry of a `setTimeout` is a method named `...TimerFires`.

The contact page keeps two counters the source does not have:

- `pendingPosts` counts the POSTs that are sent and not yet answered, so an outcome event can only happen for a request that was sent.
- `pendingResets` counts the reset timers that are scheduled and have not fired yet, so a timer can only fire after a success has scheduled it.

Each component module ends with one or more scenario methods. A scenario
drives fresh objects through a sequence of events. Its postcondition states
the outcome the code produces for those events.

Modules and files:

- `wrappers.dfy`, module `Wrappers`: `Option`, used for keys that an object literal may lack.
- `js_string.dfy`, module `JsString`: the white-space trim that JavaScript strings provide.
- `app.dfy`, module `AppRoot`: the application root.
- `projects.dfy`, module `Projects`: the project gallery.
- `contact.dfy`, module `Contact`: the contact form.
- `preferences_modal.dfy`, module `PreferencesModal`: the preference dialog.
- `home.dfy`, module `Home`: the home page.
- `navbar.dfy`, module `Navbar`: the navigation bar.
- `admin.dfy`, module `Admin`: the admin message list.

Behaviour of the code worth noting:

- The theme token is a string. Toggling maps `"light"` to `"dark"` and any other string to `"light"`.
- The contact form's failure banner stays through the next attempt until that attempt's outcome arrives, or until a leftover reset timer fires. Starting a new submission leaves the banner as it is. A reset timer left over from an earlier success clears any banner, including a later failure's (`Contact.StaleResetScenario`).
- The submit handler does not check `loading`, so a second POST can be sent while the first is unanswered if the disabled button is bypassed. Each answer then runs its own branch, and the first answer clears `loading` while the second request is still open (`Contact.DoubleSubmitScenario`).
- The mobile menu is not closed on a route change. Only its own buttons and links flip it.
- A filter chosen while the project list is still loading stays highlighted after the load. The load still shows the whole list (`Projects.FilterBeforeLoadScenario`).
- The "all four fields present" guard on the contact form is the browser's `required` attribute. The handler does not check it, so the model does not require it either.

## Model

| member | source | states |
|---|---|---|
| `AppRoot.Toggled` | src/App.js:51-53 | the toggled token is always "light" or "dark", and it is "dark" exactly when the old token was "light" |
| `AppRoot.ToggleInvolution` | src/App.js:51-53 | toggling twice restores "light" and "dark" |
| `AppRoot.ToggleOtherIsLight` | src/App.js:51-53 | any other string toggles to "light", so two toggles do not restore it |
| `AppRoot.ThemeObjectFor` | src/App.js:64 | the dark theme object is chosen exactly for "dark" |
| `AppRoot.ToggleSwitchesThemeObject` | src/App.js:51-64 | from a reachable token, each toggle changes the theme object that is applied |
| `AppRoot.Merge` | src/App.js:55-57 | every key the patch has takes the patch's value, and every key it lacks keeps its previous value |
| `AppRoot.Combine` | src/App.js:55-57 | spreading two patches gives each key the later patch's value where that patch has the key |
| `AppRoot.FullPatch` | src/components/UserPreferencesModal.js:195-200 | the object literal the dialog emits has all four keys, each carrying the dialog's value |
| `AppRoot.MergeEmpty` | src/App.js:55-57 | merging an empty patch changes nothing |
| `AppRoot.MergeFullReplaces` | src/App.js:55-57 | a patch with all four keys replaces the record |
| `AppRoot.MergeTwice` | src/App.js:55-57 | two merges in a row equal one merge of the combined patch |
| `AppRoot.MergeIdempotent` | src/App.js:55-57 | merging the same patch twice equals merging it once |
| `AppRoot.MergeMoodThenName` | src/App.js:55-57 | updating mood and then name gives the record with exactly those two keys changed |
| `AppRoot.RootViewOf` | src/App.js:59-64 | while loading only the splash screen is shown; otherwise the shell is shown with the theme object of the current token |
| `AppRoot.App.constructor` | src/App.js:34-41 | the root starts loading, with "light" and the defaults (empty name, "full", "neutral", music off) |
| `AppRoot.App.LoadingTimerFires` | src/App.js:44-48 | the gate timer clears `loading` and changes nothing else |
| `AppRoot.App.ToggleTheme` | src/App.js:51-53 | the theme becomes the toggled token; `loading` and the preferences are unchanged |
| `AppRoot.App.UpdateUserPreferences` | src/App.js:55-57 | the preferences become the merge of the old preferences and the patch; `loading` and the theme are unchanged |
| `AppRoot.App.View` | src/App.js:59-61 | the splash screen is rendered exactly while `loading` |
| `AppRoot.GateScenario` | src/App.js:34-64 | the shell is not shown before the gate timer fires; after it fires, toggling and updating do not bring the splash back |
| `Projects.OfCategory` | src/pages/Projects.js:235 | filtering by a category keeps only projects of that category, and never makes the list longer |
| `Projects.Filtered` | src/pages/Projects.js:232-236 | "all" gives the whole list; any other category gives a list no longer than the full one, holding only projects of that category |
| `Projects.OfCategoryIsSubsequence` | src/pages/Projects.js:235 | the filtered list is an order-preserving subsequence of the project list |
| `Projects.OfCategoryCounts` | src/pages/Projects.js:235 | each project of the category occurs in the result as often as in the list; other projects do not occur |
| `Projects.FilteredMeaning` | src/pages/Projects.js:229-238 | "all" gives the whole list; any other category gives the order-preserving subsequence of exactly its projects |
| `Projects.FilteredEmptyIff` | src/pages/Projects.js:235 | a category other than "all" gives an empty list exactly when no project has that category |
| `Projects.FetchedCategories` | src/pages/Projects.js:160-221 | the fetched list has six projects, with ids 1 to 6 and the categories the page hard-codes |
| `Projects.FetchedOfCategory` | src/pages/Projects.js:160-237 | on the fetched list, "frontend" gives ids 2 and 4, "backend" gives id 5, and "fullstack" gives ids 1, 3 and 6 |
| `Projects.ViewOf` | src/pages/Projects.js:322-387 | the loading text is shown while loading; otherwise the grid of the visible list, or the empty state exactly when that list is empty |
| `Projects.ProjectsPage.constructor` | src/pages/Projects.js:151-155 | the page starts with empty lists, the "all" filter and `loading` set |
| `Projects.ProjectsPage.LoadTimerFires` | src/pages/Projects.js:157-227 | after the load, both lists equal the fetched list and `loading` is clear; the active filter is untouched |
| `Projects.ProjectsPage.HandleFilterChange` | src/pages/Projects.js:229-238 | the active filter becomes the category and the visible list becomes the filter of the full list; the full list is not modified |
| `Projects.ProjectsPage.ButtonActive` | src/pages/Projects.js:285-319 | a filter button is highlighted exactly when its category is the active filter |
| `Projects.ProjectsPage.View` | src/pages/Projects.js:322-387 | the empty state is shown exactly when not loading and the visible list is empty |
| `Projects.FilterScenario` | src/pages/Projects.js:157-238 | after the load each button shows its category's ids in list order, and "all" shows ids 1 to 6 |
| `Projects.FilterBeforeLoadScenario` | src/pages/Projects.js:223-238 | a filter chosen before the load stays active, but the load then shows the whole list instead of that category |
| `Contact.WithField` | src/pages/Contact.js:218-221 | an edit sets its own field and leaves the other three unchanged |
| `Contact.WithFieldTwice` | src/pages/Contact.js:218-221 | of two edits to the same field, only the second counts |
| `Contact.WithFieldSame` | src/pages/Contact.js:218-221 | writing back a field's current value changes nothing |
| `Contact.WithFieldCommutes` | src/pages/Contact.js:218-221 | edits to two different fields can be applied in either order |
| `Contact.BannerShown` | src/pages/Contact.js:313-321 | the status banner is rendered exactly when `submitted` is set |
| `Contact.SettledStatusShowsBanner` | src/pages/Contact.js:232-260 | a settled submission shows the banner, and its success flag is the request's outcome; the idle status shows no banner |
| `Contact.ContactPage.constructor` | src/pages/Contact.js:202-216 | the form starts with empty fields, the idle status, and not sending |
| `Contact.ContactPage.HandleChange` | src/pages/Contact.js:218-221 | only the edited field changes; the status and `loading` are unchanged |
| `Contact.ContactPage.BeginSubmit` | src/pages/Contact.js:223-229 | `loading` is set before the outcome is known, the posted body is the current form, and one more POST is open; `loading` is not checked |
| `Contact.ContactPage.PostSucceeded` | src/pages/Contact.js:229-253 | when an open POST succeeds, `loading` is cleared, the status becomes the success status, all four fields become empty, and one reset timer is scheduled |
| `Contact.ContactPage.PostFailed` | src/pages/Contact.js:254-261 | when an open POST fails, `loading` is cleared, the status becomes the failure status, and the fields are kept |
| `Contact.ContactPage.StatusResetTimerFires` | src/pages/Contact.js:247-253 | a reset timer sets the idle status whatever the status was; the fields are unchanged |
| `Contact.ContactPage.SubmitDisabled` | src/pages/Contact.js:370-381 | the submit button is disabled exactly while `loading` |
| `Contact.ContactPage.ShowsBanner` | src/pages/Contact.js:313 | the banner is shown exactly when the status has `submitted` set |
| `Contact.SuccessScenario` | src/pages/Contact.js:218-253 | filled fields are posted as typed and cleared on success; the button is disabled while sending; the timer resets the banner |
| `Contact.FailureScenario` | src/pages/Contact.js:218-261 | a rejected post keeps the fields, shows the failure banner and re-enables the button |
| `Contact.StaleResetScenario` | src/pages/Contact.js:223-261 | with the fields filled before each submission, a reset timer left over from an earlier success also clears a later failure's banner |
| `Contact.DoubleSubmitScenario` | src/pages/Contact.js:223-261 | two submits before any answer post the form twice; the first answer clears `loading` although one POST is still open, and the last answer decides the banner and the fields |
| `JsString.TrimStart` | src/components/UserPreferencesModal.js:334 | strips leading white space: the result is a suffix of the input that does not start with white space, and everything cut off is white space |
| `JsString.TrimEnd` | src/components/UserPreferencesModal.js:334 | strips trailing white space: the result is a prefix of the input that does not end with white space, and everything cut off is white space |
| `JsString.Trim` | src/components/UserPreferencesModal.js:334 | the trimmed name is no longer than the name and has no white space at either end |
| `JsString.TrimIsSlice` | src/components/UserPreferencesModal.js:334 | the trimmed name is a contiguous slice of the name, and only white space is cut off its two ends |
| `JsString.TrimEmptyIff` | src/components/UserPreferencesModal.js:334 | the trimmed name is empty exactly when every character of the name is white space |
| `PreferencesModal.OrDefault` | src/components/UserPreferencesModal.js:188-191 | a non-empty string is kept, and the empty (falsy) string is replaced by the fallback |
| `PreferencesModal.DefaultPreferencesValid` | src/App.js:36-41 | the default experience and mood are among the values the dialog's controls offer |
| `PreferencesModal.SubmitDisabledFor` | src/components/UserPreferencesModal.js:334 | submitting is disabled exactly when the name is all white space (or empty) |
| `PreferencesModal.PreferencesDialog.constructor` | src/components/UserPreferencesModal.js:187-191 | each field is seeded from the given preferences, falling back to "full" or "neutral" when that value is empty; valid choices stay valid |
| `PreferencesModal.PreferencesDialog.SetName` | src/components/UserPreferencesModal.js:255-261 | typing in the name input changes only the name |
| `PreferencesModal.PreferencesDialog.ChooseExperience` | src/components/UserPreferencesModal.js:264-303 | a radio button sets only the experience, to one of "full", "moderate" or "simple" |
| `PreferencesModal.PreferencesDialog.ChooseMood` | src/components/UserPreferencesModal.js:223-319 | a mood chip sets only the mood, to one of the five listed moods |
| `PreferencesModal.PreferencesDialog.ToggleMusic` | src/components/UserPreferencesModal.js:321-328 | the switch negates `playMusic` and changes nothing else |
| `PreferencesModal.PreferencesDialog.SubmitDisabled` | src/components/UserPreferencesModal.js:330-337 | the submit button is disabled exactly when the trimmed name is empty |
| `PreferencesModal.PreferencesDialog.Submit` | src/components/UserPreferencesModal.js:193-201 | the submit callback receives exactly the four current values as a patch |
| `PreferencesModal.SubmitReplacesPreferences` | src/components/UserPreferencesModal.js:193-201 | merging the dialog's patch makes the root's preferences equal to the dialog's values, which keeps valid choices valid |
| `PreferencesModal.OpensOnDefaultsScenario` | src/components/UserPreferencesModal.js:187-191 | the dialog opens on the default preferences with submitting disabled |
| `PreferencesModal.EmitsEnteredScenario` | src/components/UserPreferencesModal.js:193-337 | after a name and a choice in each control are entered, submitting is enabled and emits exactly those values |
| `PreferencesModal.BlankNameDisabled` | src/components/UserPreferencesModal.js:334 | a name of spaces and tabs keeps submitting disabled, and a name with a letter enables it |
| `Home.InitiallyShown` | src/pages/Home.js:146 | the dialog is shown at mount exactly when the name is empty |
| `Home.ShownUntilNamed` | src/pages/Home.js:146 | the dialog opens with the default preferences, and after a merge that sets a non-empty name it no longer opens at mount |
| `Home.HomePage.constructor` | src/pages/Home.js:145-146 | the dialog flag starts as "the current name is empty" |
| `Home.HomePage.HandleCloseModal` | src/pages/Home.js:148-150 | closing hides the dialog and leaves the preferences unchanged |
| `Home.HomePage.HandleUpdatePreferences` | src/pages/Home.js:152-155 | an update goes to the root's merge, and then the dialog is hidden |
| `Home.HomePage.ModalProps` | src/pages/Home.js:182-188 | the dialog is rendered exactly while the flag is set, and it is seeded with the current preferences |
| `Home.FirstVisitScenario` | src/pages/Home.js:145-188 | on a first visit the dialog opens; after a submission the root holds exactly the submitted values and the dialog is closed |
| `Navbar.ScrolledAt` | src/components/Navbar.js:127-133 | the shadow flag is set exactly when the scroll offset exceeds 50 |
| `Navbar.LinkActive` | src/components/Navbar.js:176 | a link is highlighted exactly when the path equals its route |
| `Navbar.ActiveCountIsMembership` | src/components/Navbar.js:174-213 | among distinct routes, one link is highlighted when the path is one of them, and none otherwise |
| `Navbar.AtMostOneActive` | src/components/Navbar.js:174-213 | at most one of the four desktop links is highlighted, and exactly one on a linked route |
| `Navbar.ThemeIconFor` | src/components/Navbar.js:222 | the icon is the moon exactly for "light" and the sun otherwise |
| `Navbar.IconAgreesWithTheme` | src/components/Navbar.js:222 | on the root's tokens, the moon is shown exactly when the light theme object is applied, and each toggle swaps the icon |
| `Navbar.NavbarState.constructor` | src/components/Navbar.js:121-123 | the bar starts with the menu closed and no shadow |
| `Navbar.NavbarState.HandleScroll` | src/components/Navbar.js:126-133 | after a scroll event, `scrolled` is the threshold test on the new offset; the menu flag is unchanged |
| `Navbar.NavbarState.ToggleMobileMenu` | src/components/Navbar.js:139-141 | the menu flag is negated, and `scrolled` is unchanged |
| `Navbar.NavbarState.MobileLinkClicked` | src/components/Navbar.js:248-282 | a mobile link flips the menu flag, so an open menu closes, and it navigates to its route |
| `Navbar.NavbarState.MobileMenuRendered` | src/components/Navbar.js:234 | the mobile menu is rendered exactly while the flag is set |
| `Navbar.NavigationScenario` | src/components/Navbar.js:121-282 | the shadow follows the latest offset (60 sets it, 50 clears it); the menu opens, a link closes it, and two more toggles leave it closed |
| `Admin.AccentOf` | src/pages/Admin.js:34-40 | the border accent is the border colour exactly for read messages |
| `Admin.DisplayedSubject` | src/pages/Admin.js:225-227 | the shown subject is never empty: it is the message's subject, or "No Subject" when that is empty |
| `Admin.StatusLabel` | src/pages/Admin.js:237-247 | the label is "Read" exactly for read messages and "Unread" otherwise |
| `Admin.AccentMatchesLabel` | src/pages/Admin.js:210-247 | the accent and the label always agree on whether a message was read |
| `Admin.CardOf` | src/pages/Admin.js:211-249 | a card shows the message's sender, email, raw timestamp and body, its shown subject, its accent and its read label |
| `Admin.Cards` | src/pages/Admin.js:210-250 | there is one card per message, in server order, with that message's sender, email, raw timestamp, body, accent, shown subject and read label |
| `Admin.ViewOf` | src/pages/Admin.js:190-204 | loading comes first, then a non-empty error, then the empty list, then the list; exactly one view is chosen |
| `Admin.AdminPage.constructor` | src/pages/Admin.js:119-122 | the page starts with no messages, `loading` set and no error |
| `Admin.AdminPage.FetchSucceeded` | src/pages/Admin.js:127-129 | a successful fetch stores the response data and clears `loading`; the error stays unset |
| `Admin.AdminPage.FetchFailed` | src/pages/Admin.js:130-133 | a failed fetch stores the failure text and clears `loading`; the messages stay empty |
| `Admin.AdminPage.View` | src/pages/Admin.js:190-252 | the error view is shown exactly when loading is over and an error is stored; a list view shows the cards of the stored messages |
| `Admin.FetchScenarios` | src/pages/Admin.js:119-252 | an empty response shows the empty state; one unread message without a subject shows a primary-accent "Unread" card titled "No Subject"; a rejection shows the error view |

## Left out

- Styling: every styled-components rule, the theme colour tables and the global styles. These are presentation with no behaviour.
- Animation: framer-motion variants, the Loader component's timeline, and every transition duration and delay. These are declarative animation over floating-point values.
- The custom cursor component. It attaches DOM listeners and checks the viewport width at mount.
- The About, NotFound and Footer pages. They are static content; the footer's current year comes from the clock.
- HTTP: the POST to `/api/contact` and the GET of `/api/messages`. Only their outcome is modelled, as the event methods named above.
- The shape of the fetch response. The model assumes `response.data` is a list of messages.
- Timers: the real delays (2000 ms, 1000 ms, 5000 ms) and `clearTimeout` on unmount. Each expiry is an explicit event method.
- The Projects page's load timer and the Contact page's reset timer are not cancelled on unmount in the source. Unmounting is not modelled.
- `formatDate` in the admin page. It calls the browser's locale formatter, so a card keeps the raw timestamp.
- Route matching, the wildcard route, and `useLocation`. These belong to the routing library. The current path is a parameter of `Navbar.LinkActive`.
- Adding and removing the scroll listener. That is runtime plumbing. The scroll offset is a parameter of `Navbar.NavbarState.HandleScroll`.
- React's render and state batching, and stale closures.
- Contact.ContactPage.HandleChange: the handler spreads over the form as it was at the last render. The model applies edits one after another.
- AppRoot.Merge: an object key whose value is `undefined` is not modelled. A patch key is either absent (`None`) or carries a value.
- PreferencesModal.PreferencesDialog.constructor: initial values that are `undefined` or `null` are not modelled, because the record always has all four fields. An empty string falls back to the default, as in the source.
- JsString.Trim: it works on Unicode scalar values, while JavaScript strings are UTF-16. The set of white-space characters is the one the ECMAScript standard lists.
- The double-submit guard exists only as the disabled button (`Contact.ContactPage.SubmitDisabled`), as in the source. `BeginSubmit` itself does not check `loading`.
