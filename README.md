# Portfolio behaviour model

A Dafny model of the deterministic rules inside a React single-page
portfolio. The site is mostly markup and animation, but some rules can be
stated exactly:

- The scripted chat terminal answers commands by keyword and keeps a
  conversation history.
- Two normalisers turn experience and project records into the record the
  project modal shows.
- Small state machines drive the modal's image/3D flag, the error boundary,
  the loading overlay and the text-scramble reveal.
- Pure classifiers cover the viewport position, scroll progress and section
  dots, and the timeline layout.
- String rules give the owner's name split and the skills ticker.

The model has one module per source file. Two shared modules hold the
JavaScript semantics those rules rely on:

- `JsValues`: values, truthiness, property lookup and `||`.
- `JsStrings`: `includes`, `toLowerCase`, `trim`, `split` and `join`.

State that a component updates step by step is a class whose methods state
the new state. Each rule is stated with the property that makes it what it
is: the terminal's history stays a well-formed conversation, `join` undoes
`split`, the viewport classification is monotone as an element moves, and
every percentage lights exactly one section dot once the last range is
closed.

Inputs the program takes from the browser become parameters:

- random draws;
- element and window measurements;
- the scroll offset;
- whether a callback prop was passed.

Timer and effect callbacks become explicit method calls. The terminal's
answers are computed from a `Content` value: the imported personal info,
skills and projects, which on the site is `SiteContent`. The dispatch and
history rules are proved for any content, and the texts the site shows are
proved about the site's own data.

## Model

| member | source | states |
|---|---|---|
| AITerminal.Terminal.constructor | src/components/AITerminal.tsx:13-17 | the terminal starts closed with an empty input and a history of exactly one `ai` greeting entry, answering from the content it is given |
| AITerminal.DispatchIgnoresCase | src/components/AITerminal.tsx:37-50 | a command and its lower-cased form get the same answer, because only the lower-cased text is matched |
| AITerminal.DispatchSameUpToCase | src/components/AITerminal.tsx:37-50 | two commands that are equal up to case are answered alike |
| AITerminal.DispatchPriority | src/components/AITerminal.tsx:40-49 | keywords are tried in the order help, skills, projects, contact, about, and the first one present picks the answer |
| AITerminal.ClearAndDenied | src/components/AITerminal.tsx:38-53 | a command clears exactly when "clear" is present and none of the five answering keywords is; it gets the fixed refusal exactly when it has no keyword at all |
| AITerminal.HelpOutranksClear | src/components/AITerminal.tsx:40-53 | "HELP clear" mentions "clear" but is answered with the help text and does not clear |
| AITerminal.MentionsInLonger | src/components/AITerminal.tsx:37-49 | text added on either side of a command never hides a keyword its lower-cased form contains |
| AITerminal.Categories | src/components/AITerminal.tsx:43 | the category list has one entry per skills category, in order |
| AITerminal.SkillsTextListsCategories | src/components/AITerminal.tsx:43 | the skills answer names the four SKILLS categories in array order, comma-separated |
| AITerminal.ProjectsTextListsFeatured | src/components/AITerminal.tsx:45 | the projects answer names exactly the three featured project titles in array order |
| AITerminal.Dispatch | src/components/AITerminal.tsx:37-53 | a command clears only if it mentions "clear" and none of the five answering keywords; one that mentions "help" always gets the help answer; one with no keyword at all gets the refusal |
| AITerminal.AfterCommand | src/components/AITerminal.tsx:50-55 | a clearing command leaves an empty history; any other command keeps every earlier entry and appends exactly the raw command as `user` and then its answer as `ai` |
| AITerminal.AfterCommandKeepsConversation | src/components/AITerminal.tsx:36-56 | after any command, every user entry is still directly followed by the dispatcher's answer to it, and every non-final answer by a user entry |
| AITerminal.Terminal.HandleCommand | src/components/AITerminal.tsx:36-56 | the history becomes the dispatcher's result and stays a well-formed conversation; the open flag and input are unchanged |
| AITerminal.Terminal.HandleSubmit | src/components/AITerminal.tsx:58-63 | all-whitespace input changes nothing; any other input is dispatched untrimmed and the field becomes empty |
| AITerminal.Terminal.SyncExternalOpen | src/components/AITerminal.tsx:21-25 | a true `externalOpen` opens the terminal and a false one leaves it as it was; nothing else changes |
| AITerminal.Terminal.HandleClose | src/components/AITerminal.tsx:31-34 | the terminal closes, and the parent's `onClose` is called exactly when it was supplied |
| AITerminal.Terminal.OpenFromButton | src/components/AITerminal.tsx:68-69 | the floating button opens the terminal and leaves the conversation alone |
| AITerminal.Terminal.EditInput | src/components/AITerminal.tsx:126 | typing replaces the input and nothing else |
| JsStrings.ContainsIffOccurs | src/components/AITerminal.tsx:40-50 | `includes` answers true exactly when the keyword occurs at some position of the string |
| JsStrings.Contains | src/components/AITerminal.tsx:40 | `includes` finds the empty pattern in every string, and never a pattern longer than the string |
| JsStrings.ToLower | src/components/AITerminal.tsx:37 | lower-casing never shortens a string |
| JsStrings.ToLowerIdempotent | src/components/AITerminal.tsx:37 | lower-casing twice is the same as lower-casing once |
| JsStrings.ToLowerKeeps | src/components/AITerminal.tsx:37 | a string with no character that lower-casing maps is its own lower case |
| JsStrings.Trim | src/components/AITerminal.tsx:60 | `trim()` never lengthens a string, and returns a string with no whitespace at either end unchanged |
| JsStrings.TrimEmptyIffBlank | src/components/AITerminal.tsx:60 | `trim()` is empty exactly when every character is ECMAScript whitespace or a line terminator |
| JsStrings.Split | src/components/Hero.tsx:10 | `split(c)` always yields at least one piece |
| JsStrings.Join | src/components/Hero.tsx:12 | joining no parts gives the empty string, and joining one part gives that part |
| JsStrings.SplitPieces | src/components/Hero.tsx:10 | no piece of `split(c)` contains `c`, and a string without `c` splits into just itself |
| JsStrings.SplitJoin | src/components/Hero.tsx:10-12 | joining the pieces of `split(c)` with `c` gives the original string back |
| JsStrings.SplitFirstPiece | src/components/Hero.tsx:10-11 | the first piece is the prefix before the first `c`, and is the whole string when there is no `c` |
| Data.IsExperienceItem | src/lib/data.ts:165-167 | `isExperienceItem` holds exactly for objects with both `company` and `id` |
| Data.IsProjectItem | src/lib/data.ts:169-171 | `isProjectItem` holds exactly for objects with `category` and without `company` |
| Data.GuardsExclusive | src/lib/data.ts:165-171 | no value passes both guards |
| Data.GuardsRecogniseItems | src/lib/data.ts:165-171 | on the program's experience and project objects each guard accepts exactly its own kind |
| Data.ProjectRecordFields | src/lib/data.ts:33-42 | a project object has no `company`, `id`, `year` or `techStack` key, and reads back its title, category, description, tech and optional image |
| Data.ToModalData | src/lib/data.ts:177-195 | both kinds keep the title and take `techStack` from `tech`; an experience keeps its year, gets "company • description" and no image, tagged experience; a project gets year "2025", its own description and image, tagged project |
| Data.ExperienceDescriptionPrefixed | src/lib/data.ts:182 | the modal description of an experience is the bare description lengthened by the company and a 3-character bullet, so it never equals the bare one |
| Data.FeaturedTitles | src/components/AITerminal.tsx:45 | the featured titles are never more than the projects; a featured first project heads the list, and a first project that is not featured makes the list shorter than the array |
| Data.FeaturedTitlesExact | src/components/AITerminal.tsx:45 | a title is listed exactly when some featured project carries it |
| Data.ExperienceIdsDistinct | src/lib/data.ts:93-118 | the EXPERIENCE ids are pairwise distinct |
| Data.ThreeFeaturedProjects | src/lib/data.ts:120-159 | there are four projects and the featured ones are exactly the first three, in order |
| App.OpenModalRecord | src/App.tsx:18-24 | `techStack` is `tech` if truthy, else `techStack` if truthy, else `[]`; `year` is `year` if truthy, else "2025"; every other key is kept; both are always truthy |
| App.OpenModalAgreesOnProjects | src/App.tsx:18-24 | for a project object, `openModal` and `toModalData` agree on title, year, description, tech list and image |
| App.OpenModalOnExperience | src/App.tsx:18-24 | for an experience object, `openModal` keeps the bare description, unlike `toModalData`; the years agree exactly when the item's year is non-empty |
| App.Page.constructor | src/App.tsx:15-16 | no item is selected and the terminal flag is off |
| App.Page.OpenModal | src/App.tsx:18-24 | the selected item becomes the normalised record, which opens the modal |
| App.Page.CloseModal | src/App.tsx:55-58 | the modal's close handler clears the selection, so the modal is closed |
| App.Page.ContactClicked | src/App.tsx:36 | the contact action sets the flag, and the terminal opens with its conversation untouched |
| App.Page.TerminalClosed | src/App.tsx:61-64 | closing the terminal calls the supplied `onClose`, which clears the flag |
| App.ProjectRecordImage | src/App.tsx:18-24 | the modal's record for a project has an image exactly when the project has a non-empty image URL, and one without reads back `undefined` |
| App.Reopen | src/components/ProjectModal.tsx:23-29 | for any record with an image followed, after a close, by one without: the first render of the second opening commits the image branch with the falsy URL as its source, and only after the effect the 3D view |
| App.ReopenWithoutImage | src/components/ProjectModal.tsx:23-29 | on the site, the content-classification project opened after Chronos is first rendered as an `<img>` with an undefined source, then as the 3D view |
| ProjectModal.HasImage | src/components/ProjectModal.tsx:31 | `hasImage` holds only for a record whose `imageUrl` is present and truthy |
| ProjectModal.Render | src/components/ProjectModal.tsx:31-80 | something is rendered iff the modal is open with a record; the toggle is rendered iff the record has an image; the 3D view is rendered iff `showArtifact` |
| ProjectModal.ImageOnlyWithUrl | src/components/ProjectModal.tsx:57-72 | once the effect has run for the current props, the image branch is rendered only for a record with a truthy image URL |
| ProjectModal.StaleFlagRendersEmptyImage | src/components/ProjectModal.tsx:57-69 | with the flag still false, a record without an image is rendered as an `<img>` whose source is the missing, falsy URL, with no toggle |
| ProjectModal.RenderDecided | src/components/ProjectModal.tsx:23-29 | the corrected selection shows the 3D view exactly when the flag says so or the record has no image |
| ProjectModal.DecidedImageOnlyWithUrl | src/components/ProjectModal.tsx:57-72 | under the corrected selection no flag value renders an image without a truthy URL, and wherever the effect has run it renders what the component renders |
| ProjectModal.Modal.constructor | src/components/ProjectModal.tsx:20 | `showArtifact` starts true |
| ProjectModal.Modal.ReceiveProps | src/components/ProjectModal.tsx:23-29 | the render with the new props still uses the old flag; then opening with a record sets `showArtifact` to "no image", so the image shows first when there is one, and otherwise the flag is kept |
| ProjectModal.Modal.ClickToggle | src/components/ProjectModal.tsx:72-74 | the toggle negates `showArtifact` when it is drawn and changes nothing else |
| ErrorBoundary.DerivedStateFromError | src/components/ErrorBoundary.tsx:30-36 | the new state has the error flag set and holds the thrown value |
| ErrorBoundary.PanelMessage | src/components/ErrorBoundary.tsx:64 | the panel shows the error's message if it is non-empty, otherwise the fixed WebGL text; never an empty message |
| ErrorBoundary.Render | src/components/ErrorBoundary.tsx:48-75 | children are returned iff there is no error; after an error, the fallback iff it is truthy, otherwise the default panel |
| ErrorBoundary.WithFallbackRender | src/components/ErrorBoundary.tsx:82-93 | the wrapper shows its children until an error and then its fallback, or the default panel when the fallback is falsy |
| ErrorBoundary.Boundary.constructor | src/components/ErrorBoundary.tsx:22-28 | the state starts with no error and a null error value |
| ErrorBoundary.Boundary.Catch | src/components/ErrorBoundary.tsx:30-46 | a throw sets the derived state, which no member clears, and calls `onError` exactly when it was supplied |
| TextScramble.FrameChar | src/components/TextScramble.tsx:34-48 | a space stays a space, a position up to the frame shows the text, and any later one a charset glyph |
| TextScramble.Scramble | src/components/TextScramble.tsx:30-49 | each frame has the text's length; spaces stay spaces; positions up to the frame show the text; every later position shows a charset glyph |
| TextScramble.LateFrameIsText | src/components/TextScramble.tsx:39-44 | from frame length−1 on, the output is the text itself whatever the draws |
| TextScramble.Scrambler.constructor | src/components/TextScramble.tsx:18-20 | the display starts as the plain text, not yet animated |
| TextScramble.Scrambler.Start | src/components/TextScramble.tsx:22-28 | the first time the effect fires it captures the current text and schedules frame 0; every later time changes nothing; neither touches the display or the scrambling flag |
| TextScramble.Scrambler.ChangeText | src/components/TextScramble.tsx:18-24 | a new `text` prop after the first animation changes nothing shown: the display, the captured text and the running animation stay as they were |
| TextScramble.Scrambler.Tick | src/components/TextScramble.tsx:51-58 | a step shows the current frame, then either advances the counter by one or, at the text's length, stops with the plain text shown |
| TextScramble.RunToEnd | src/components/TextScramble.tsx:53-63 | a started animation stops after exactly length+1 steps with the plain text (the one captured at the start) on screen |
| ViewportPosition.ThresholdOf | src/hooks/useViewportPosition.ts:13 | an absent threshold option is 0 |
| ViewportPosition.Classify | src/hooks/useViewportPosition.ts:20-47 | "above" iff the bottom is above the threshold, which outranks everything; then "below" iff the top is past the window less the threshold; otherwise the centre's third of the window decides |
| ViewportPosition.BoundariesBelongBelow | src/hooks/useViewportPosition.ts:40-46 | a centre exactly at one third is "center" and exactly at two thirds is "bottom" |
| ViewportPosition.ClassifyMonotone | src/hooks/useViewportPosition.ts:25-46 | moving an element further down never moves its position up the order above < top < center < bottom < below |
| ViewportPosition.Tracker.constructor | src/hooks/useViewportPosition.ts:13-14 | the position starts as "below", with the resolved threshold |
| ViewportPosition.Tracker.Update | src/hooks/useViewportPosition.ts:20-47 | the stored position becomes the classification of the current measurements |
| ScrollProgress.Divide | src/components/ScrollProgress.tsx:11 | division follows JavaScript: finite for a non-zero divisor, and NaN or an infinity by the dividend's sign for zero |
| ScrollProgress.MinWith | src/components/ScrollProgress.tsx:12 | `Math.min` with 100 is NaN iff its input is, never +∞, and at most 100 when finite |
| ScrollProgress.ProgressAsWritten | src/components/ScrollProgress.tsx:8-13 | the progress is never above 100 and never +∞ |
| ScrollProgress.ProgressOnScrollablePage | src/components/ScrollProgress.tsx:9-12 | on a scrollable page the progress is the scrolled percentage, capped at 100 and non-negative for a non-negative offset |
| ScrollProgress.NoLowerClamp | src/components/ScrollProgress.tsx:12 | an overscroll above the top yields a negative progress |
| ScrollProgress.NaNOnUnscrollablePage | src/components/ScrollProgress.tsx:10-12 | a page exactly as tall as the window, at rest, yields NaN |
| ScrollProgress.Progress | src/components/ScrollProgress.tsx:8-13 | the corrected progress is a number at most 100 |
| ScrollProgress.ProgressAgrees | src/components/ScrollProgress.tsx:8-13 | the corrected progress equals the one as written wherever that one is finite, and is 0 where that one is NaN |
| ScrollProgress.ProgressInRange | src/components/ScrollProgress.tsx:8-13 | for a non-negative offset and height the corrected progress lies in 0..100 |
| ScrollProgress.Round | src/components/ScrollProgress.tsx:59 | `Math.round` gives the integer within half a unit, with halves rounded up |
| ScrollProgress.RoundJs | src/components/ScrollProgress.tsx:59 | the label rounds finite values and passes NaN and infinities through |
| ScrollProgress.LabelInRange | src/components/ScrollProgress.tsx:59 | a progress in 0..100 is labelled with a whole number in 0..100 |
| ScrollProgress.DotActiveAsWritten | src/components/ScrollProgress.tsx:76 | dot i is lit exactly for a finite progress in [i·33.33, (i+1)·33.33), so never for NaN or a negative value |
| ScrollProgress.AtMostOneDot | src/components/ScrollProgress.tsx:76 | the dot ranges are disjoint, so at most one dot is lit |
| ScrollProgress.NoDotAtBottom | src/components/ScrollProgress.tsx:76 | from 99.99 on, and at 100 in particular, no dot is lit; none is lit for NaN either |
| ScrollProgress.DotActive | src/components/ScrollProgress.tsx:66-76 | a lit dot is one of the three sections at a non-negative progress, and the last one stays lit from 2·33.33 all the way up |
| ScrollProgress.ExactlyOneDot | src/components/ScrollProgress.tsx:66-76 | with the last range closed, every progress in 0..100 lights exactly one of the three section dots |
| ScrollProgress.DotActiveAgrees | src/components/ScrollProgress.tsx:76 | below 99.99 the corrected dot rule and the one as written agree |
| LoadingScreen.NextProgress | src/components/LoadingScreen.tsx:11-18 | at or past 100 the updater gives exactly 100; below 100 it adds an amount in [0, 15) |
| LoadingScreen.NextProgressBounds | src/components/LoadingScreen.tsx:11-18 | below 100 the progress never decreases, and it stays in [0, 115) |
| LoadingScreen.OvershootThenClamp | src/components/LoadingScreen.tsx:12-17 | 99 + 14 overshoots to 113, and the next tick pins it back to 100 |
| LoadingScreen.Loader.constructor | src/components/LoadingScreen.tsx:5-10 | the overlay starts loading at 0% with the interval active |
| LoadingScreen.Loader.Tick | src/components/LoadingScreen.tsx:10-19 | a tick applies the updater; the tick that finds 100 or more stops the interval and schedules the removal; a stopped interval changes nothing |
| LoadingScreen.Loader.HideFires | src/components/LoadingScreen.tsx:14 | the removal timeout hides the overlay, which then always sits at 100% |
| Timeline.SideOf | src/components/Timeline.tsx:22 | even positions are left and odd positions right |
| Timeline.SidesAlternate | src/components/Timeline.tsx:22 | neighbouring nodes sit on opposite sides, and the first on the left |
| Timeline.Nodes | src/components/Timeline.tsx:16-27 | one node per entry in order, keyed by id, carrying its year, title, side, position and tech list; a click selects the original entry |
| Timeline.DescriptionMatchesModal | src/components/Timeline.tsx:21 | a node's description is exactly the one `toModalData` builds for the same entry |
| Timeline.ClickSelectsEntry | src/components/Timeline.tsx:25 | clicking either element of node i hands `onSelect` the i-th experience entry, unmodified |
| Timeline.SiteTimeline | src/components/Timeline.tsx:16-22 | the site's timeline has three nodes, left, right, left, with distinct keys |
| TimelineNode.TechTags | src/components/TimelineNode.tsx:78-80 | tags are drawn only when a tech list is given, and are its first min(3, n) entries in order |
| TimelineNode.TagsAreLeadingTech | src/components/TimelineNode.tsx:80 | every drawn tag is the technology at the same position, within the first three |
| TimelineNode.LayoutFor | src/components/TimelineNode.tsx:16-91 | a left node reverses the row, right-aligns the card, end-justifies the tags, shifts left on hover and anchors the circuit line on the right; a right node does the opposite |
| TimelineNode.LayoutsMirror | src/components/TimelineNode.tsx:26-91 | the two sides differ in every layout choice and hover in opposite directions |
| TimelineNode.EntryDelay | src/components/TimelineNode.tsx:23 | the entry delay is never negative |
| TimelineNode.DelaysStaggered | src/components/TimelineNode.tsx:23 | the first node has no delay and each next one waits 0.15 s longer |
| TimelineNode.OnClick | src/components/TimelineNode.tsx:35-55 | a click on the connector or the card triggers the node's own `onClick` prop, and nothing when none is passed |
| TimelineNode.ClickTargetsAgree | src/components/TimelineNode.tsx:35-55 | clicking the connector and clicking the card trigger the same action |
| Hero.SplitName | src/components/Hero.tsx:10-12 | the first name is a space-free prefix of the name |
| Hero.FirstNameBeforeSpace | src/components/Hero.tsx:10-11 | the first name is all of the name or is followed by a space |
| Hero.NameRoundTrip | src/components/Hero.tsx:10-12 | for a name with a space, first + " " + last gives the name back |
| Hero.NameWithoutSpace | src/components/Hero.tsx:10-12 | a name without a space is all first name, with an empty last name |
| Hero.OwnerName | src/components/Hero.tsx:10-12 | the owner's name splits into "Sai" and "Teja Meka" |
| Hero.AllSkills | src/components/Hero.tsx:93-98 | the flattened list has as many entries as the categories have skills together |
| Hero.AllSkillsExact | src/components/Hero.tsx:93-98 | the flattened list holds exactly the categories' skills |
| Hero.Ticker | src/components/Hero.tsx:93-98 | the ticker is the flattened list written twice, so twice as long |
| Hero.AllSkillsAppend | src/components/Hero.tsx:93-98 | flattening keeps category order: the list of two category runs is the first run's list followed by the second's |
| Hero.AllSkillsSingle | src/components/Hero.tsx:93-98 | one category flattens to its own item list, in order |
| Hero.SiteTicker | src/components/Hero.tsx:93-98 | the site's flattened list is the four categories' item lists concatenated in category order, 28 skills, and the ticker has 56 entries |

## Left out

- Markup, styling and animation presets are not modelled: class strings, framer-motion settings, icons, SVG and the 3D scene. The only exceptions are the layout choices listed for the timeline node.
- `toLowerCase` is modelled on ASCII letters plus the two characters whose lower case is ASCII-relevant (KELVIN SIGN and LATIN CAPITAL I WITH DOT ABOVE). Every other character is kept, whereas JavaScript maps it to another non-ASCII character; keyword matching is the same either way.
- Strings are sequences of Unicode scalar values, not UTF-16 code units. A character outside the Basic Multilingual Plane counts as one position in the text-scramble frame, where the program counts two.
- Numbers are exact reals. Only `ScrollProgress` models NaN and the infinities, where the widget meets them. Floating-point rounding of 33.33 multiples and of `index * 0.15` is not modelled, and negative zero is not distinguished.
- Random numbers are parameters: the glyph index per position and frame, and the loading step in [0, 15).
- Timers and listeners are explicit calls:
  - `setTimeout`, `setInterval` and their delays;
  - the scroll, resize and interval listeners;
  - effect cleanup on unmount.
- Scroll progress is modelled as functions only, because its state merely stores the value. The progress ring's `strokeDashoffset` is not modelled.
- The terminal's auto-scroll effect (`scrollIntoView`) is not modelled.
- The viewport hook's early return when the element reference is empty is not modelled. The position then simply stays "below", so `Update` is called only with measurements.
- ProjectModal.Modal.ReceiveProps: returns the one render between new props and the effect, but not the animation frames of that render (the exit and entry transitions).
- The error boundary's `console.error` call and `errorInfo` argument are not modelled. React nodes are reduced to their truthiness and identity.
- Type guards treat arrays as having no own keys, since no array in the program carries `company`, `id` or `category`.
- SKILLS icons, the résumé link and external links are not modelled.
- The project grid (`Projects`) calls the same `openModal` as the timeline, so it is covered by `App.Page.OpenModal`. Its markup is not modelled.

## Findings

`ScrollProgress`, `LoadingScreen`, `TextScramble` and `ErrorBoundary` are
modelled as the components are written. The page in src/App.tsx does not
mount any of them, so the two ScrollProgress findings below concern that
component, not the page as it is served.

| source | as written | input that shows it | evidently intended | confidence | as-written member | corrected member |
|---|---|---|---|---|---|---|
| src/components/ScrollProgress.tsx:10-12 | the progress divides the offset by `scrollHeight - innerHeight` with no guard for zero | a page exactly as tall as the window, at offset 0: 0/0 gives NaN, so the label reads "NaN%" and no dot is lit | an unscrollable page shows 0% | not executed; certain for IEEE 754 division | ScrollProgress.NaNOnUnscrollablePage | ScrollProgress.Progress |
| src/components/ScrollProgress.tsx:76 | dot i is lit for `i*33.33 <= progress < (i+1)*33.33`, so the last range ends at 99.99 | progress 100 at the bottom of the page: no section dot is lit | the last dot stays lit up to and including 100, so every percentage lights exactly one dot | not executed; exact-real reasoning, and floating point gives the same at 100 | ScrollProgress.NoDotAtBottom | ScrollProgress.DotActive |
| src/components/ProjectModal.tsx:23-29 | `showArtifact` is decided in an effect, which runs after the render that receives the new record, and closing the modal does not reset it | open a project with an image (the flag becomes false), close the modal, open a project without one: that first render outputs, and React commits, `<img>` with an undefined `src` until the effect switches to the 3D view | the choice for a record without an image is the 3D view from its first render | not executed; the committed render follows from React running effects after the render they belong to; that frame is probably never painted, since the reopen comes from a click, whose effects React 18 flushes before paint, and the card enters at opacity 0 | App.ReopenWithoutImage | ProjectModal.RenderDecided |
