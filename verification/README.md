# Year-in-review site: state machines and decision rules

This project models, in Dafny, the logic inside the React components of a
single-page "year in review" site. Rendering, animation and real time are not
modelled. What is modelled is the state each component keeps and the event
handlers that change it. Every timer firing is a discrete event in one
sequential trace.

- `Opening` (opening.dfy) is the opening sequence. A loading counter climbs
  from 0 to 100 on an interval. The phase then becomes `ready` and a click
  starts the sequence. The click calls `onStart` and arms a countdown interval
  whose local counter shows 3, 2, 1. The phase then goes to `reveal`, then
  after a timeout to `zooming`, and after a second timeout `onComplete` is
  called.
  - The pure state machine is `Step` over a `State` record. That record holds
    the three state variables, the armed timers, the countdown's captured
    counter and the number of calls made to each callback.
  - The class `Sequencer` holds the same fields and has one method per event.
    Each method is proved to perform `Step`.
  - Unmounting clears only the loading interval (Opening.jsx:41). The
    countdown interval and the two timeouts keep running after the component
    is gone, and `onComplete` is still called (`UnmountDuringCountdown`).
    State updates made after unmount are dropped.
- `Gallery` (gallery.dfy) covers four rules.
  - The scroll-offset-to-chapter quantizer and its three-way update policy,
    with the `ChapterTracker` class. The highlighted chapter starts at 0, even
    though offset 0 maps to the hero (-1).
  - The chapter indicators.
  - The story carousel: its modulo advance, the placeholder test on image
    identifiers, and where the shown image comes from (Unsplash, a full URL
    passed through, or a Cloudinary public ID).
  - The hero section's bounded first-in-first-out list of floating images.
- `SecretMessage` (secret_message.dfy) is the login gate. It looks up the
  first credential record whose user name matches without regard to case and
  whose password matches exactly. It also has the login, logout and
  field-editing transitions, and the dashboard's photo count against the
  photo grid it heads.
- `App` (app.dfy) is the shell. It tracks whether the opening is showing and
  which view is current. It holds the navigation rule: home means the gallery
  scrolled to the top. It also holds the rule that picks the audio track.
- `Navbar` (navbar.dfy) holds the hide-on-scroll rule and the button that is
  highlighted for each view.
- `Wrappers` (wrappers.dfy) defines `Option`, which stands for `null`,
  `undefined` and a failed `find`.

## Model

| member | source | states |
|---|---|---|
| `Opening.InitInv` | src/components/features/Opening.jsx:8-10 | the mounted state has counter 0, phase loading and countdown value 3, and satisfies the invariant |
| `Opening.Sequencer.constructor` | src/components/features/Opening.jsx:8-10 | mounting gives the initial state with the loading interval armed |
| `Opening.LoadingTickCount` | src/components/features/Opening.jsx:31-37 | below 100 a tick adds exactly 1 and the phase stays loading. At 100 or more the tick keeps the counter at 100, sets ready and stops the interval. The counter never decreases and never exceeds 100 |
| `Opening.LoadingTicks` | src/components/features/Opening.jsx:29-39 | after k ticks from mounting the counter reads k for k up to 100; ready comes on tick 101, the one after the counter first reads 100 |
| `Opening.Sequencer.LoadingTick` | src/components/features/Opening.jsx:30-38 | the interval callback performs the loading step and keeps the invariant |
| `Opening.Sequencer.RunLoading` | src/components/features/Opening.jsx:29-39 | the interval fires 101 minus the current counter times, then stops with the phase ready and the counter at 100 |
| `Opening.Sequencer.HandleStart` | src/components/features/Opening.jsx:44-49 | wired only while ready (line 89), it sets countdown, calls onStart once and arms the countdown with counter 3 |
| `Opening.ClickOnce` | src/components/features/Opening.jsx:44-46 | a second click after the first is handled changes nothing, so onStart runs at most once |
| `Opening.Sequencer.CountdownTick` | src/components/features/Opening.jsx:50-58 | the counter is decremented; a positive value is shown, and zero stops the interval and sets reveal |
| `Opening.Sequencer.RunCountdown` | src/components/features/Opening.jsx:49-58 | the numbers shown are exactly the counter's value down to 1, and the interval ends in reveal with the reveal timeout armed |
| `Opening.StartAndCountDown` | src/components/features/Opening.jsx:44-58 | from ready, a click followed by the countdown interval shows exactly 3, 2, 1 and then reveals, without calling onComplete |
| `Opening.Sequencer.RevealTimeout` | src/components/features/Opening.jsx:61-63 | the reveal hold sets zooming and arms the zoom timeout |
| `Opening.Sequencer.ZoomTimeout` | src/components/features/Opening.jsx:65-67 | the zoom timeout calls onComplete, whose count is then exactly 1 |
| `Opening.Sequencer.Teardown` | src/components/features/Opening.jsx:41 | unmounting clears the loading interval and nothing else |
| `Opening.StepInv` | src/components/features/Opening.jsx:29-70 | every event keeps the invariant: counter in 0..100, countdown value in 1..3, one chain timer at a time, callbacks at most once |
| `Opening.RunInv` | src/components/features/Opening.jsx:29-70 | any trace of events keeps the invariant |
| `Opening.Reachable` | src/components/features/Opening.jsx:8-70 | in every reachable state the counter is within 0..100 and the countdown shows 3, 2 or 1, never 0. onStart and onComplete are each called at most once, with onComplete never before onStart. Once complete and still mounted, the phase is zooming |
| `Opening.StepForward` | src/components/features/Opening.jsx:34-62 | each event moves the phase forward by zero or one place, so no phase is skipped or revisited; the unused `explosion` value is never entered |
| `Opening.RunForward` | src/components/features/Opening.jsx:29-70 | along any trace the phase rank and the counter never decrease |
| `Opening.ForwardFromInit` | src/components/features/Opening.jsx:29-70 | from any reachable state, any continuation keeps or advances the phase and the counter |
| `Opening.FromReady` | src/components/features/Opening.jsx:44-68 | from ready, click and three ticks show 3, 2, 1 and then reveal. The reveal hold then zooms, and the zoom calls onComplete exactly once and leaves no timer armed |
| `Opening.UnmountDuringCountdown` | src/components/features/Opening.jsx:41-67 | unmounting mid-countdown freezes the phase but does not stop the chain: onComplete is still called once |
| `Gallery.ChapterIndex` | src/components/features/Gallery.jsx:233 | with a positive viewport the index i satisfies (i+1)·vh ≤ scrollPos + vh/2 < (i+2)·vh. A zero viewport gives +∞, NaN or −∞ according to the sign of the offset |
| `Gallery.ChapterIndexIsFloor` | src/components/features/Gallery.jsx:233 | the integer formula equals floor((scrollPos + vh·0.5)/vh) − 1 computed over the reals |
| `Gallery.ChapterIndexMonotone` | src/components/features/Gallery.jsx:233 | the index is non-decreasing in the scroll offset |
| `Gallery.NextChapterInRange` | src/components/features/Gallery.jsx:235-239 | an index in [0, N) is selected and a negative one selects −1. An index ≥ N keeps the previous value. The result stays in [−1, N−1], or is 0 when N = 0 |
| `Gallery.NextChapterIdempotent` | src/components/features/Gallery.jsx:235-239 | handling the same scroll offset twice equals handling it once |
| `Gallery.NextChapterStateless` | src/components/features/Gallery.jsx:235-239 | below the last chapter the result does not depend on the previous value; past it the previous value is kept, not clamped |
| `Gallery.ChapterExamples` | src/components/features/Gallery.jsx:233-239 | with vh = 800 and 5 chapters, offsets 0, 400 and 4500 give −1, 0 and the unchanged previous value |
| `Gallery.ChapterTracker.constructor` | src/components/features/Gallery.jsx:222 | the highlighted chapter starts at 0, not −1 |
| `Gallery.ChapterTracker.HandleScroll` | src/components/features/Gallery.jsx:229-240 | the scroll handler applies the update policy to the quantized offset and keeps the chapter in range |
| `Gallery.OneIndicatorActive` | src/components/features/Gallery.jsx:197-204 | exactly one indicator is highlighted for a chapter in range, and none for −1 |
| `Gallery.NextSlide` | src/components/features/Gallery.jsx:101 | the advanced index is in [0, len) and is the next index, wrapping from the last to the first |
| `Gallery.AdvanceTimesIsMod` | src/components/features/Gallery.jsx:95-101 | after k advances from the first slide the index is k mod len |
| `Gallery.AdvanceFullRound` | src/components/features/Gallery.jsx:101 | len advances bring the carousel back to the first slide |
| `Gallery.Carousel.constructor` | src/components/features/Gallery.jsx:88-89 | a non-array prop becomes a one-element slide list, and the index starts at 0 |
| `Gallery.Carousel.Advance` | src/components/features/Gallery.jsx:93-101 | an advance happens only when there is more than one slide, and it sets the index to (prev + 1) mod len |
| `Gallery.Carousel.CurrentSource` | src/components/features/Gallery.jsx:114-120 | the shown image is the current slide's source; an empty slide list yields none |
| `Gallery.FinalSource` | src/components/features/Gallery.jsx:116-120 | an identifier gets an Unsplash URL exactly when it is a placeholder, and that URL is never itself a placeholder. An identifier starting with "http" is shown verbatim, and an empty one gives no source. Only the rest reach Cloudinary as public IDs, so a public ID containing '-' can never be delivered from Cloudinary |
| `Gallery.UnsplashUrlIsNotPlaceholder` | src/components/features/Gallery.jsx:117 | identifiers starting with "http", the generated Unsplash URL among them, are never placeholders |
| `Gallery.ReplayLength` | src/components/features/Gallery.jsx:9-29 | from empty, after k firings the list holds 0, 1, 2, 3, 4 images and then alternately 3 and 4, and never more than 4 |
| `Gallery.ReplayIsNewestAppended` | src/components/features/Gallery.jsx:16-29 | the list is always the newest of the appended images in append order, so the one dropped is always the oldest |
| `Gallery.AmbientImages.constructor` | src/components/features/Gallery.jsx:9 | the list starts empty |
| `Gallery.AmbientImages.Tick` | src/components/features/Gallery.jsx:14-30 | with more than 3 images the first is dropped, otherwise the new image is appended at the end. The length stays at most 4 |
| `SecretMessage.Lower` | src/components/features/SecretMessage.jsx:15 | the result has the input's length, and each character is the input's character, lower-cased |
| `SecretMessage.LowerIdempotent` | src/components/features/SecretMessage.jsx:15 | lower-casing twice equals lower-casing once |
| `SecretMessage.FindUserIsFirstMatch` | src/components/features/SecretMessage.jsx:14-16 | the lookup fails exactly when no record matches the case-folded user name and the exact password; otherwise it returns the first matching record in list order |
| `SecretMessage.FindUserIgnoresCase` | src/components/features/SecretMessage.jsx:14-16 | lower-casing the typed user name does not change the lookup's result |
| `SecretMessage.PhotoGridMatchesCount` | src/components/features/SecretMessage.jsx:148-162 | the photo count in the heading equals the number of tiles rendered in the grid, and tile i shows image i as "Memory i+1" |
| `SecretMessage.LoginGate.constructor` | src/components/features/SecretMessage.jsx:7-10 | nobody is logged in, both fields are empty and no error shows |
| `SecretMessage.LoginGate.SetUsername` | src/components/features/SecretMessage.jsx:66 | typing sets the user name and nothing else |
| `SecretMessage.LoginGate.SetPassword` | src/components/features/SecretMessage.jsx:77 | typing sets the password and nothing else |
| `SecretMessage.LoginGate.HandleLogin` | src/components/features/SecretMessage.jsx:12-26 | on a match the current user becomes that record, the error clears and both fields empty. On failure only the error is raised, and the user and both fields are unchanged |
| `SecretMessage.LoginGate.HandleLogout` | src/components/features/SecretMessage.jsx:28-30 | the current user is cleared and nothing else changes |
| `App.ViewNameInjective` | src/App.jsx:11 | the three view names are distinct |
| `App.NavigateView` | src/App.jsx:41-58 | navigating never yields home. Asking for home yields the gallery whatever the current view, and any other request yields the view asked for |
| `App.NavigateAllIsLast` | src/App.jsx:41-58 | after any series of navigations the view is the last one asked for, with home read as the gallery |
| `App.SwitchAudio` | src/App.jsx:61-70 | afterwards the source is the selected track, and playback is on exactly when it was on before |
| `App.SwitchAudioIdempotent` | src/App.jsx:61-70 | running the audio effect twice for the same view equals running it once |
| `App.Shell.constructor` | src/App.jsx:10-11 | the opening shows, the view is home, and the main track is loaded (line 76) |
| `App.Shell.StartExperience` | src/App.jsx:18-34 | the start callback starts playback and changes no view state |
| `App.Shell.HandleOpeningComplete` | src/App.jsx:36-39 | the opening is hidden and the view becomes the gallery |
| `App.Shell.HandleNavigate` | src/App.jsx:41-58 | the view follows the navigation rule, a scroll to the top is requested exactly when home is asked for, and the opening shows exactly while the view is home |
| `App.Shell.SyncAudio` | src/App.jsx:61-70 | the source is reassigned exactly when it differs from the selected track, and playback resumes exactly when it was playing |
| `Navbar.ShowsUnlessScrollingDown` | src/components/common/Navbar.jsx:39-46 | scrolling up or not moving shows the bar, as does any offset of 150 or less. A missing previous offset counts as 0 |
| `Navbar.HiddenAfterLastChange` | src/components/common/Navbar.jsx:39-46 | after any series of scroll changes the flag depends only on the last one: hidden exactly when latest > previous and latest > 150 |
| `Navbar.Bar.constructor` | src/components/common/Navbar.jsx:37 | the bar starts shown |
| `Navbar.Bar.OnScrollChange` | src/components/common/Navbar.jsx:39-46 | hidden becomes true exactly when the page moved down past 150 |
| `Navbar.ExactlyOneActive` | src/components/common/Navbar.jsx:59-83 | exactly one button is highlighted, the current view's. Each button navigates to its own view name: 'home', 'gallery', 'message', no two to the same |

## Left out

- Presentation is not modelled: framer-motion animation properties, Tailwind classes and layout. The film-grain and TV-frame components have no logic.
- Durations and interleavings are not modelled. The 30 ms, 1000 ms, 1500 ms, 5000 ms, 100 ms and 300 ms timers are events in one sequential trace.
- The carousel's static flicker (`isStatic`) is not modelled; it is only timing.
- Random values are given values. These are the floating images' positions, scales and rotations and the story item they show. `Date.now()` ids are given values too. The opening's "explosion" image grid is not modelled; it is random decoration.
- The scroll progress bar is not modelled. It uses spring physics over floating point.
- The Cloudinary URL builder behind `getImageUrl` (src/lib/cloudinary.js:28-42, over the `@cloudinary/url-gen` library) is not part of this model. Only the helper's two early returns are: an identifier that reaches the builder is kept as the public ID it would be given.
- I/O and the DOM are not modelled. The audio volume, a rejected `play()` promise, `scrollIntoView` and its 100 ms delay, listener registration and the missing-container guard are out. Playback is assumed to start when asked.
- The story and message JSON files are not modelled; they are a chapter count and a sequence of records.
- SecretMessage.Lower: lower-cases ASCII letters only, whereas `toLowerCase` is Unicode-aware.
- Gallery.ChapterIndex: takes integer `scrollTop` and `clientHeight`. A fractional scroll offset is not modelled.
- Opening.Sequencer.HandleStart: requires the phase to be ready because the click handler is attached only then. `handleStart` itself has no phase guard.
