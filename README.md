# Portfolio site: interactive state, modelled in Dafny

This project models the interactive behaviour of a single-page personal portfolio site built with React:

- the **theme provider** (`src/hooks/useTheme.tsx`). It starts dark. It is initialised from local storage or the system's light-scheme preference. The apply step sets one of the `light`/`dark` root classes and writes the theme back to storage. The theme button toggles it.
- the **project gallery** (`src/components/Projects.tsx`). This covers the catalogue and the category filter buttons. The grid holds the filtered projects in catalogue order. Each card has a status badge, a hover overlay with its links, and a tech stack cut to four entries plus a `+k` badge.
- the **hero typewriter** (`src/components/Hero.tsx`). It types a role one character per tick, holds it, deletes it one character per tick, and moves on to the next role.
- the **education cards and module dialog** (`src/components/Education.tsx`). A card flips only when the degree has years. There are year tabs and a lookup of the selected year. The front shows a module count summed over the years, the back a two-word header. The dialog is open exactly while a module is selected.
- the **contact form** (`src/components/Contact.tsx`). Editing a field changes that field only. The form goes through the phases idle → sending → sent → idle. The submit button has its own disabled and label rules.

Each module (`Theme`, `Projects`, `Hero`, `Education`, `Contact`) follows one source file. State that the components update in place is a class with the component's own state variables. Its methods are tied to a pure step function on a state record (`Hero.Next`, `Contact.Next`) or to pure derived views (`Theme.Initialised`, `Theme.AppliedClasses`, `Projects.Filter`, …). The lemmas are proved about those functions. Browser facilities are values:
- local storage is a `map<string, string>`;
- the root element's class list is a `set<string>`;
- the `prefers-color-scheme: light` media query is a `bool` parameter;
- timers are explicit events: the hero's hold timeout is `Hold`, and the contact form's delay and reset are `DelayElapsed` and `ResetElapsed`.

Notes on the model:
- The stored theme is not validated (`src/hooks/useTheme.tsx:16` only casts it). So the theme is any string, and any non-empty stored string becomes the theme. `Theme.ToggleUnknown` states what toggling such a value gives.
- When nothing is stored and light is not preferred, the initialisation effect calls no setter. The theme keeps its current value, which at mount is `dark`. `Theme.Initialised` takes that current value as a parameter.
- On mount, the apply effect first runs for the initial `dark` render. Only then does the re-render apply the initialised theme. The reading of storage happens before that first write. `Theme.LastApplyWins` shows the earlier apply leaves no trace in the class list, and the second apply overwrites the stored value. So the mount is modelled as `Init` followed by one `Apply`.
- All four contact fields carry `required`. The browser therefore runs the submit handler only when the button is enabled and all four fields are non-empty. `Contact.SubmitAccepted` is that guard.

## Model

| member | source | states |
|---|---|---|
| Theme.ThemeStore.constructor | src/hooks/useTheme.tsx:13 | before initialisation the theme is `dark`; storage and root classes are the browser's |
| Theme.SavedTheme | src/hooks/useTheme.tsx:16-17 | a stored value is used exactly when the key is present with a non-empty string, and it is that string |
| Theme.Initialised | src/hooks/useTheme.tsx:15-22 | a truthy stored string wins, unvalidated; otherwise `light` if the system prefers light; otherwise the theme is unchanged |
| Theme.ThemeStore.Init | src/hooks/useTheme.tsx:15-22 | the initialisation effect sets the theme to `Initialised(storage, prefersLight, old theme)` and keeps it non-empty |
| Theme.AppliedClasses | src/hooks/useTheme.tsx:25-32 | theme `light` gives `light` and not `dark`; any other value gives `dark` and not `light`; every other class is kept or absent as before |
| Theme.ThemeStore.Apply | src/hooks/useTheme.tsx:24-34 | the apply effect sets the root classes to `AppliedClasses(old classes, theme)` and the storage key to the theme, other keys unchanged |
| Theme.Toggled | src/hooks/useTheme.tsx:36-38 | the result is `light` or `dark`, always differs from the input (so the apply effect re-runs), and is `light` exactly when the input is `dark` |
| Theme.ThemeStore.Toggle | src/hooks/useTheme.tsx:36-38 | the toggle replaces the theme by `Toggled(theme)` |
| Theme.ToggleTwice | src/hooks/useTheme.tsx:36-38 | on `light` and `dark` toggling twice restores the original |
| Theme.ToggleUnknown | src/hooks/useTheme.tsx:36-38 | an unvalidated stored value toggles to `dark`, and twice to `light` |
| Theme.LastApplyWins | src/hooks/useTheme.tsx:24-34 | applying `t1` then `t2` leaves the same class list as applying `t2` alone |
| Theme.PersistRoundTrip | src/hooks/useTheme.tsx:15-33 | storing a non-empty theme and initialising from that storage yields that theme, whatever the preference and current value |
| Theme.ReloadKeepsTheme | src/hooks/useTheme.tsx:15-33 | persisting `dark` or `light` and reloading yields the same theme |
| Theme.MountThenToggle | src/hooks/useTheme.tsx:12-38 | mount then toggle: the mounted theme is the initialised one, the toggled one differs from it, storage and classes end with the toggled theme, and a reload returns it |
| Theme.UseTheme | src/hooks/useTheme.tsx:47-52 | outside a provider the hook fails with its message; inside it returns the context unchanged |
| Projects.Filter | src/components/Projects.tsx:116-118 | the filtered grid is never longer than the catalogue |
| Projects.FilterMembers | src/components/Projects.tsx:116-118 | a project is in the grid exactly when it is in the catalogue and the filter is `all` or one of its categories |
| Projects.FilterConcat | src/components/Projects.tsx:116-118 | filtering preserves order: the filter of `a + b` is the filter of `a` followed by the filter of `b` |
| Projects.FilterSingle | src/components/Projects.tsx:116-118 | a single project is kept exactly when it is shown under the filter |
| Projects.FilterCounts | src/components/Projects.tsx:116-118 | each project keeps its multiplicity when shown and has none otherwise, so the grid is exactly the shown subsequence |
| Projects.FilterAll | src/components/Projects.tsx:116-118 | under `all` the grid is the whole list in its original order |
| Projects.FilterIdempotent | src/components/Projects.tsx:116-118 | filtering the filtered grid by the same category changes nothing |
| Projects.FilterNoMatch | src/components/Projects.tsx:116-118 | a category matched by no project gives an empty grid |
| Projects.CloudProjects | src/components/Projects.tsx:21-118 | on the real catalogue, the cloud filter gives exactly the three cloud projects in catalogue order |
| Projects.CatalogueTitlesDistinct | src/components/Projects.tsx:21-100 | the catalogue's titles, used as card keys, are pairwise distinct |
| Projects.ButtonsFor | src/components/Projects.tsx:145-153 | the number of buttons with a given value is at most the number of buttons, and zero exactly when no button has it |
| Projects.OneButtonPerCategory | src/components/Projects.tsx:102-108 | every category has exactly one filter button: some button carries each of the five categories, and no two buttons carry the same one, so exactly one button is active |
| Projects.Gallery.constructor | src/components/Projects.tsx:113-114 | the active filter starts as `all`, with no card hovered |
| Projects.Gallery.ClickFilter | src/components/Projects.tsx:145-153 | clicking a button makes its value the active filter; that button is marked active and no other is |
| Projects.Gallery.Visible | src/components/Projects.tsx:116-118 | the grid is `Filter(Catalogue, active filter)`: exactly the shown catalogue projects, each once and in catalogue order (by `FilterCounts`, `FilterConcat` and `FilterAll`) |
| Projects.Gallery.MouseEnter | src/components/Projects.tsx:168 | entering a card records its title, and its overlay becomes visible |
| Projects.Gallery.MouseLeave | src/components/Projects.tsx:169 | leaving clears the hovered title, and no overlay is visible |
| Projects.OverlayOnOneCard | src/components/Projects.tsx:161-190 | with distinct titles, the hover overlay is visible on at most one catalogue card |
| Projects.OverlayLinks | src/components/Projects.tsx:193-218 | the overlay holds the GitHub link first and the demo link last. Each appears exactly when it is present and non-empty (an empty string is falsy in the `&&` guard), and nothing else appears |
| Projects.Gallery.IsActive | src/components/Projects.tsx:149 | a filter button carries the active style exactly when no other button does |
| Projects.Gallery.OverlayVisible | src/components/Projects.tsx:190 | the overlay of a card is visible exactly when the hovered title is that card's title; on a catalogue card, no other catalogue card's overlay is visible then |
| Projects.StatusLabel | src/components/Projects.tsx:177-184 | the badge is present exactly when the project has a status: "Completed" for completed, "In Progress" for in progress |
| Projects.TechStackRow | src/components/Projects.tsx:233-245 | the first `min(4, n)` entries are shown; a `+k` badge appears exactly when `n > 4`, with shown count plus `k` equal to `n` |
| Hero.Start | src/components/Hero.tsx:31-33 | the typewriter starts on role 0 with no text, typing |
| Hero.Typewriter.constructor | src/components/Hero.tsx:31-33 | the component's state starts at `Start()` and satisfies the invariant |
| Hero.Delay | src/components/Hero.tsx:37 | the tick delay is 30 or 80, and below 80 exactly while deleting |
| Hero.Next | src/components/Hero.tsx:39-54 | a tick preserves "index in bounds, text a prefix of the role". Typing extends the text by one character of the role. A tick on a fully typed role changes nothing. Deleting drops exactly the last character. Deleting on empty text moves to the next role modulo the role count and resumes typing |
| Hero.Typewriter.Step | src/components/Hero.tsx:39-54 | the timer callback moves the state to `Next(old state)`. It starts the hold timeout exactly when the role is fully typed, and that timeout is 2000 ms |
| Hero.HoldFired | src/components/Hero.tsx:44 | the hold sets deleting and keeps index and text, preserving the invariant |
| Hero.Typewriter.Hold | src/components/Hero.tsx:44 | the hold timeout moves the state to `HoldFired(old state)` |
| Hero.Run | src/components/Hero.tsx:35-57 | the invariant holds after any number of ticks |
| Hero.TypeOut | src/components/Hero.tsx:40-42 | `k` typing ticks show the role's first `|text| + k` characters |
| Hero.DeleteDown | src/components/Hero.tsx:47-48 | `k` deleting ticks remove the last `k` characters |
| Hero.Cycle | src/components/Hero.tsx:35-57 | from role `i` with no text: `|role|` ticks type the role, which then stalls until the hold; `|role| + 1` more ticks delete it and land on role `(i + 1) % 4` with no text |
| Hero.IconsCoverRoles | src/components/Hero.tsx:12-19 | there are as many icons as roles, so the icon lookup is in bounds in every valid state |
| Hero.Typewriter.CurrentIcon | src/components/Hero.tsx:59 | the icon shown is one of the role icons and belongs to no role other than the current one |
| Hero.IconsDistinct | src/components/Hero.tsx:12-19 | no two roles share an icon |
| Hero.IconFollowsRole | src/components/Hero.tsx:39-59 | a tick changes the icon exactly when it changes the role, which is exactly when it is deleting and the text is already empty |
| Education.FlipCard.constructor | src/components/Education.tsx:134-135 | a card starts unflipped with year 1 selected |
| Education.FlipCard.ClickFront | src/components/Education.tsx:151 | a front click flips the card exactly when the degree has at least one year, and otherwise leaves it as it was |
| Education.FlipCard.Close | src/components/Education.tsx:204 | the close button unflips the card |
| Education.FlipCard.Modules | src/components/Education.tsx:137-230 | the back lists exactly the modules of the year record found for the selected number, and nothing when no year has it. Every listed module is one of the degree's modules |
| Education.FlipCard.TabSelected | src/components/Education.tsx:218 | a tab is highlighted exactly when the year lookup succeeds and finds a record with that tab's number. If no earlier tab has the same number, the modules listed are that tab's own |
| Education.FlipCard.SelectTab | src/components/Education.tsx:213-221 | a tab click selects that tab's year; that tab is marked selected and the year lookup then succeeds |
| Education.FindYear | src/components/Education.tsx:137 | the lookup fails exactly when no year has the number; otherwise it returns a record of the list with that number |
| Education.FindYearFirst | src/components/Education.tsx:137 | the record returned is the first one with that number |
| Education.ShownModules | src/components/Education.tsx:230 | the back lists the selected year's modules, or nothing when that year is missing |
| Education.ModuleCountFrom | src/components/Education.tsx:173 | the `reduce` never ends below its start value |
| Education.ModuleCount | src/components/Education.tsx:173 | the module total on the front is the number of modules over all years |
| Education.ModulesInAll | src/components/Education.tsx:230 | the modules of any one year are among the modules of all years |
| Education.ModuleCountFromIsTotal | src/components/Education.tsx:173 | the left fold of module counts equals its start plus the number of modules over all years |
| Education.ModuleCountAppend | src/components/Education.tsx:173 | the module count of two runs of years is the sum of their counts |
| Education.Footer | src/components/Education.tsx:169-193 | the front shows counts exactly when there are years: the number of years and the number of all their modules; otherwise "Currently Pursuing" |
| Education.CatalogueCounts | src/components/Education.tsx:27-131 | the diploma shows 3 years and 19 modules, the B.Sc. in computer science 4 years and 27 modules, and the data-science degree shows no counts |
| Education.ProgressBadge | src/components/Education.tsx:157-162 | the "In Progress" badge is shown exactly when the degree is marked in progress |
| Education.CatalogueBadges | src/components/Education.tsx:27-131 | the diploma shows no badge, and the two degrees still being studied show it |
| Education.Split | src/components/Education.tsx:202 | splitting on spaces always gives at least one piece |
| Education.SplitPieces | src/components/Education.tsx:202 | there is one more piece than spaces, and no piece contains a space |
| Education.JoinSplit | src/components/Education.tsx:202 | joining the split pieces with spaces gives the title back |
| Education.JoinPrefix | src/components/Education.tsx:202 | joining the first `k` pieces gives a prefix of joining all of them, followed by a space when pieces were left out |
| Education.Join | src/components/Education.tsx:202 | joining gives nothing for no pieces. Otherwise the result starts with the first piece, and a space follows that piece when more pieces come |
| Education.ShortTitle | src/components/Education.tsx:202 | the header is a prefix of the title. It holds `min(1, spaces in title)` spaces and is either the whole title or followed by a space, so it is the title up to its second space |
| Education.Panel | src/components/Education.tsx:317-350 | the related-project panel is a link exactly when the module's project has a non-empty link. It is "Coming Soon" with the project's name exactly when the project's link is absent or empty (both falsy in the `? :` guard). It is a placeholder exactly when there is no project |
| Education.ModuleDialog.constructor | src/components/Education.tsx:252 | no module is selected and the dialog is closed |
| Education.ModuleDialog.View | src/components/Education.tsx:290-350 | the dialog shows something exactly when a module is selected. It then shows that module's name as title, its learnings in order, and `Panel(module)` as its project panel, which is a placeholder exactly when the module has no project |
| Education.ModuleDialog.ClickModule | src/components/Education.tsx:230-233 | clicking a listed module selects it and opens the dialog |
| Education.ModuleDialog.OpenChange | src/components/Education.tsx:290 | any open-state change clears the selection and closes the dialog |
| Contact.ContactForm.constructor | src/components/Contact.tsx:43-50 | all four fields are empty and neither flag is set |
| Contact.With | src/components/Contact.tsx:169-217 | editing a field sets that field to the new value and leaves the other three unchanged |
| Contact.ContactForm.Edit | src/components/Contact.tsx:169 | an input change moves the state to `Next(old state, Edit(field, value))` |
| Contact.AllFilledFields | src/components/Contact.tsx:164-220 | the `required` completeness predicate, quantified over fields, equals the four non-empty checks on name, email, project type and message |
| Contact.PhaseOf | src/components/Contact.tsx:234-249 | idle exactly when neither flag is set, sending exactly when submitting, sent exactly when submitted |
| Contact.ButtonDisabled | src/components/Contact.tsx:225 | the button is disabled in every phase except idle |
| Contact.SubmitAccepted | src/components/Contact.tsx:169-225 | a submit reaches the handler exactly when the button is enabled and name, email, project type and message are all non-empty. Only an idle form accepts one |
| Contact.TimerStarted | src/components/Contact.tsx:57-67 | an accepted submit starts the 1500 ms send delay, and the end of that delay starts the 3000 ms reset timeout. No other event starts a timer |
| Contact.ButtonLabel | src/components/Contact.tsx:234-249 | "Sending..." exactly when submitting, "Message Sent!" exactly when submitted and not submitting, "Send Message" exactly when the button is enabled |
| Contact.Next | src/components/Contact.tsx:52-70 | no event makes both flags true. An edit changes only the form. An accepted submit sets submitting and an ignored one changes nothing. The delay's end clears submitting and sets submitted. The reset clears submitted and empties the form |
| Contact.ContactForm.Submit | src/components/Contact.tsx:52-57 | a submit moves the state to `Next(old state, SubmitRequest)`. It reports whether it was accepted, and the timer it started: `TimerStarted(old state, SubmitRequest)`, which is the 1500 ms send delay exactly when accepted |
| Contact.ContactForm.DelayElapsed | src/components/Contact.tsx:57-70 | the end of the delay moves the state to `Next(old state, DelayElapsed)` and starts the 3000 ms reset timeout, `TimerStarted(old state, DelayElapsed)` |
| Contact.ContactForm.ResetElapsed | src/components/Contact.tsx:67-70 | the reset timeout moves the state to `Next(old state, ResetElapsed)` |
| Contact.DisabledBlocksSubmit | src/components/Contact.tsx:225 | while the button is disabled a submit changes nothing |
| Contact.RunKeepsInv | src/components/Contact.tsx:52-71 | over any sequence of events, submitting and submitted are never both set |
| Contact.SubmitCycle | src/components/Contact.tsx:52-71 | a complete idle form goes to sending on submit, then to sent, and the reset brings it back to the initial, empty, idle state |

## Left out

- Animations (the animation library's transitions, `AnimatePresence` and the scroll-triggered `useInView` reveal in every section) belong to a foreign library and are not modelled.
- The static content sections (about, experience, skills, leadership, AWS roadmap, footer), the navigation bar with its scroll listener and menu toggle, the theme button's icon choice and the page composition are not part of this model.
- Real time is not modelled. Timer durations are constants (`Hero.TypeDelay`, `Hero.DeleteDelay`, `Hero.HoldDelay`, `Contact.SendDelay`, `Contact.ResetDelay`), and their expiry is an event fired by the caller.
- The hero's hold timeout is never cleared. A hold that fires after unrelated ticks is not modelled; the model only gives the hold's effect (`Hero.HoldFired`), from any state.
- The toast shown after a submission, the hero image's error fallback, and scrolling are DOM side effects and are not modelled.
- The browser's check that the email field holds a well-formed address is not modelled. Only the non-empty check of the `required` attributes is part of `Contact.SubmitAccepted`.
- Storage failures are not modelled: the component has no error handling around local storage.
- Icons, gradients, colours and descriptions' styling are presentation. Project records keep title, description, categories, tech stack, links and status. Icons are only kept for the hero's role icons.
- React's development-mode double run of effects is not modelled. It would re-read storage after the first apply has written `dark`.
