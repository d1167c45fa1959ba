# Admin theme client utilities in Dafny

This project models the client-side utility module of an admin-template site,
`src/ts/util/index.ts`. The module has three parts:

- **DOM-ready gate** (`onDOMContentLoaded`, module `DomReady`). A callback runs at once
  when the document has finished parsing. Otherwise it is appended to a module-level
  array. The first registration while loading adds one DOMContentLoaded listener, and
  that listener runs the array front to back.
- **Slide animator** (`slideUp`, `slideDown`, `slideToggle`, module `Slide`). An element's
  inline style is edited in three phases: synchronously, in a 1 ms timer, and in a
  `duration` ms timer.
- **Theme toggler** (`initThemeToggler` and its click handler, module `Theme`). It keeps
  four things in step: the body's `data-bs-theme` attribute, local storage key `theme`,
  the icon's `bi-sun`/`bi-moon` class, and the body's background and text colours.

Each part is a class whose fields the source updates in place: `DomReady.ReadyGate`,
`Slide.Element` and `Theme.Page`. Each class method writes its fields in the source's
statement order, and its contract proves the new state equals a pure step function of
the old state (`Register`, `Dispatch`, `SlideUpStart`, …, `Initialized`, `Toggled`).
The lemmas state the source's promises about those step functions. Each slide phase has
an `…Edits` lemma saying what the phase writes or removes and that no other declaration
changes. The whole-animation lemmas are composed from those.

Browser inputs are parameters:

- `document.readyState`, given when the gate is created. The browser's steps that change it
  (`FinishParsing`) and that dispatch DOMContentLoaded (`Dispatch`) are separate operations.
- `offsetHeight` and `getComputedStyle(...).display`, passed to the slide methods.
- Whether `#theme-toggler` exists, passed to `InitThemeToggler`.
- Whether `#theme-icon` exists, encoded as `None` for the icon's class list.

Timers are not clocks. Each timer callback is a method of its own, and an `Animation`
value holds what the two callbacks captured. `TimerDelay` is the timeout the HTML
standard's timer initialisation steps give the `duration` timer. The timer waits at least
that long, and the browser may add more.

- The timeout is converted to a WebIDL `long`, so it wraps modulo 2^32 into a signed
  32-bit number.
- A negative timeout becomes 0.

A timer also waits for every timer started before it whose timeout is no longer than its
own. So when the `duration` timeout is at least 1, the 1 ms callback runs first, whatever
the engine. When it is 0, the standard does not fix the order. `RunTimers` and
`TimersRun` take the engine's choice as `zeroDelayFirst`:

- An engine that runs the 0 ms timer first finishes the animation before its 1 ms phase
  (`SlideUpZeroDelay`, `SlideDownZeroDelay`).
- An engine that keeps scheduling order ends as for any other duration.

A callback given to the DOM-ready gate may throw. The listener's loop has no try/catch, so
the first callback that throws ends it, and the callbacks queued after it never run
(`RunListener`, `StopsAtFirstThrow`).

The browser leaves the loading stage in two steps. `document.readyState` becomes
'interactive', deferred scripts and other tasks run, and only then is DOMContentLoaded
dispatched. A callback registered in that window runs at once, ahead of the callbacks still
waiting in the array (`PageLoad`).

In these respects the code does not do what a reader might expect; the model follows the code:

- The stored theme is not checked against 'dark'/'light'. Any non-empty text is applied
  as is, and every theme other than 'dark' gets the light colours and the moon icon.
- `initThemeToggler` reads storage and never writes it. With nothing stored, the page
  shows 'dark' while storage stays empty until the first click (`InitWithoutStoredTheme`).
- The click handler does not cancel the click's default action.
- The class the handler removes from the icon is chosen from the attribute it reads. It
  is not chosen as the "other theme's" class.
- slideDown assigns the computed display to the inline style. When that text is empty,
  the assignment removes the inline display instead of setting it (`SetProperty`).

## Model

| member | source | states |
|---|---|---|
| DomReady.Register | src/ts/util/index.ts:3-18 | one registration keeps "one listener exactly while the array is non-empty" and the readiness; while loading, `cb` joins the array's end and nothing runs; otherwise `cb` runs at once and the array and listeners stay |
| DomReady.FinishParsing | src/ts/util/index.ts:4 | the readiness change the test on line 4 observes: the document becomes 'interactive' with DOMContentLoaded not yet dispatched; the array, listeners and callbacks run stay, and the gate invariant holds |
| DomReady.Dispatch | src/ts/util/index.ts:7-11 | DOMContentLoaded, dispatched once while 'interactive', appends to the callbacks run what `RunListener` runs of the array; the array and the listener count stay, and the gate invariant holds |
| DomReady.RunListenerPrefix | src/ts/util/index.ts:8-10 | the loop runs a prefix of the array: all of it, or up to and including a callback that throws |
| DomReady.ListenerLoop | src/ts/util/index.ts:8-10 | the listener's `for ... of` loop calls the array's callbacks front to back and stops right after the first that throws, which is the run `RunListener` specifies |
| DomReady.RunsAllWithoutThrow | src/ts/util/index.ts:8-10 | when no queued callback throws, the loop runs the whole array in order |
| DomReady.StopsAtFirstThrow | src/ts/util/index.ts:8-10 | when the callback at index k is the first to throw, the loop runs exactly the callbacks up to k and none after it |
| DomReady.RegisterAllWhileLoading | src/ts/util/index.ts:4-14 | while loading, registrations append to the array's end in order and run nothing; a listener is added exactly when the array was empty and something is registered |
| DomReady.RegisterAllWhenReady | src/ts/util/index.ts:15-17 | past loading, each callback runs immediately, in order; the array and listeners are unchanged |
| DomReady.PageLoad | src/ts/util/index.ts:1-18 | over a page load (register while loading, parsing ends, register, DOMContentLoaded, register), at most one listener is added; the run is the callbacks registered between the readiness change and the event, then the queued ones up to the first that throws, then the late ones; with no thrower every callback runs exactly once (as a multiset), in registration order within each group |
| DomReady.ReadyGate.constructor | src/ts/util/index.ts:1 | the module starts with an empty array, no listener and nothing run |
| DomReady.ReadyGate.OnDOMContentLoaded | src/ts/util/index.ts:3-18 | the method's new state is `Register` of the old one and keeps the gate invariant |
| DomReady.ReadyGate.BecomeInteractive | src/ts/util/index.ts:4 | the readiness change leaves the state `FinishParsing` describes |
| DomReady.ReadyGate.FireDOMContentLoaded | src/ts/util/index.ts:7-11 | the listener's loop, which stops at the first callback that throws, leaves the state `Dispatch` describes |
| Slide.Decimal | src/ts/util/index.ts:23-25 | the text written for a whole number is non-empty, all digits, and starts with '0' only for zero |
| Slide.DecimalRoundTrip | src/ts/util/index.ts:23-25 | the decimal text of a duration or height reads back as the same number |
| Slide.ShownDisplay | src/ts/util/index.ts:52-58 | slideDown's display is never 'none': the computed display if that is not 'none', else 'block' |
| Slide.SetPropertyEdits | src/ts/util/index.ts:58 | assigning a style property sets that declaration, or removes it when the text is empty; every other declaration stays |
| Slide.SlideUpStartEdits | src/ts/util/index.ts:22-26 | slideUp's synchronous phase sets transition, duration, box-sizing, the measured height in px and overflow hidden; nothing else changes |
| Slide.SlideUpCollapseEdits | src/ts/util/index.ts:28-34 | slideUp's 1 ms phase sets height, paddings and margins to '0'; nothing else changes |
| Slide.SlideUpFinishEdits | src/ts/util/index.ts:36-46 | slideUp's last phase sets display 'none' and removes the eight animation overrides; nothing else changes |
| Slide.SlideDownStartEdits | src/ts/util/index.ts:51-65 | slideDown's synchronous phase sets display to the resolved mode (removes it when that is empty), overflow hidden, and height, paddings and margins to '0'; nothing else changes |
| Slide.SlideDownExpandEdits | src/ts/util/index.ts:67-76 | slideDown's 1 ms phase sets box-sizing, the transition and the captured height in px, and removes the padding and margin overrides; nothing else changes |
| Slide.SlideDownFinishEdits | src/ts/util/index.ts:78-83 | slideDown's last phase removes height, overflow and both transition overrides and nothing else |
| Slide.ToggleChoice | src/ts/util/index.ts:87-94 | slideToggle starts slideDown exactly when the computed display is 'none', else slideUp, with the same duration |
| Slide.TimerDelayRange | src/ts/util/index.ts:36-46 | the `duration` timer's minimum delay lies in [0, 2^31), equals `duration` below 2^31, and is 0 exactly when `duration` wraps to zero or a negative 32-bit number |
| Slide.SlideUpOutcome | src/ts/util/index.ts:21-46 | after both timers of slideUp have run with the 1 ms one first (a delay of 1 or more, or an engine that keeps scheduling order): display 'none', none of the eight overrides left, box-sizing still 'border-box', all other declarations as before |
| Slide.SlideDownMidway | src/ts/util/index.ts:50-76 | after slideDown's 1 ms phase, the padding and margin overrides are already gone, the display is the resolved mode exactly when that is non-empty, and the height is the measured one |
| Slide.SlideDownOutcome | src/ts/util/index.ts:50-83 | after both timers of slideDown have run with the 1 ms one first: an inline display is present exactly when the resolved mode is non-empty, and is then that mode (never 'none'); the height, overflow, transition and spacing overrides are gone, and box-sizing is 'border-box' |
| Slide.SlideDownKeeps | src/ts/util/index.ts:50-83 | after both timers of slideDown have run with the 1 ms one first, of what it wrote only the resolved display and box-sizing remain; every declaration it does not write is as before the call |
| Slide.SlideToggleOutcome | src/ts/util/index.ts:87-94 | after a whole slideToggle, at any delay and in either engine order, the inline display is 'none' exactly when the element was displayed at the call, and otherwise shows slideDown's resolved mode when that is non-empty |
| Slide.SlideUpZeroDelay | src/ts/util/index.ts:21-46 | with a 0 ms `duration` delay on an engine that runs that timer first, slideUp ends hidden but with the zero height, padding and margin overrides left behind |
| Slide.SlideDownZeroDelay | src/ts/util/index.ts:50-83 | with a 0 ms `duration` delay on an engine that runs that timer first, slideDown still shows its resolved display mode but ends with the measured height and the transition overrides left behind, and no overflow or spacing override |
| Slide.SlideUp | src/ts/util/index.ts:21-26 | the in-place writes give `SlideUpStart` of the old style and schedule the slide-up timers; `duration` defaults to 500 |
| Slide.SlideUpCollapseTimer | src/ts/util/index.ts:28-34 | the 1 ms callback's writes give `SlideUpCollapse` of the old style |
| Slide.SlideUpFinishTimer | src/ts/util/index.ts:36-46 | the `duration` callback's writes give `SlideUpFinish` of the old style |
| Slide.SlideDown | src/ts/util/index.ts:50-65 | the in-place writes give `SlideDownStart` of the old style; the timers capture the measured height; `duration` defaults to 500 |
| Slide.SlideDownExpandTimer | src/ts/util/index.ts:67-76 | the 1 ms callback's writes give `SlideDownExpand` with the captured duration and height |
| Slide.SlideDownFinishTimer | src/ts/util/index.ts:78-83 | the `duration` callback's writes give `SlideDownFinish` of the old style |
| Slide.FirstTimerCallback | src/ts/util/index.ts:28-34 | the animation's 1 ms callback gives `FirstTimer` of the old style |
| Slide.SecondTimerCallback | src/ts/util/index.ts:36-46 | the animation's `duration` callback gives `SecondTimer` of the old style |
| Slide.SlideToggle | src/ts/util/index.ts:87-94 | calls slideDown when the computed display is 'none', else slideUp, and returns the animation `ToggleChoice` names; `duration` defaults to 500 |
| Slide.RunTimers | src/ts/util/index.ts:28-46 | running an animation's two timers gives `TimersRun` of the old style: the 1 ms callback first when the delay is at least 1, and at delay 0 in the order the engine chooses |
| Theme.PaletteFor | src/ts/util/index.ts:118-126 | 'dark' and only 'dark' gets the '#121212' background; the foreground always differs from the background |
| Theme.WithPalette | src/ts/util/index.ts:118-126 | `updateStyles` leaves the body showing the theme's palette and changes no other declaration |
| Theme.InitialTheme | src/ts/util/index.ts:100 | the initial theme is never empty; it is the stored text when that is present and non-empty, otherwise 'dark' |
| Theme.NextTheme | src/ts/util/index.ts:107-108 | the click chooses 'light' exactly when the attribute is 'dark', and 'dark' otherwise (also for a missing attribute) |
| Theme.Initialized | src/ts/util/index.ts:97-106 | init sets the attribute to the initial theme, paints its palette and adds its icon class; other body declarations stay; it leaves storage untouched and attaches the handler when the toggle control exists |
| Theme.Toggled | src/ts/util/index.ts:106-116 | a click sets the attribute to the next theme; afterwards attribute, storage, colours and icon agree; an icon holding only the old theme's class holds only the new one's; icon classes other than the two, other body declarations and other storage keys are untouched |
| Theme.ToggleTwice | src/ts/util/index.ts:106-116 | two clicks from an agreeing 'dark' or 'light' page restore exactly that page |
| Theme.ToggleTwiceRestoresTheme | src/ts/util/index.ts:106-116 | two clicks from any 'dark' or 'light' page, agreeing or not, restore the attribute, its colours and its icon class, keep other icon classes, and leave storage holding that theme |
| Theme.InitSyncsStoredTheme | src/ts/util/index.ts:100-104 | with a non-empty stored theme, whatever its text, and neither icon class present, init leaves attribute, storage, colours and icon in agreement |
| Theme.InitWithoutStoredTheme | src/ts/util/index.ts:100-104 | with nothing stored, init shows 'dark' with dark colours but writes no storage, so the page does not yet agree |
| Theme.Page.UpdateStyles | src/ts/util/index.ts:118-126 | the two colour writes give `WithPalette` of the old body style |
| Theme.Page.InitThemeToggler | src/ts/util/index.ts:97-106 | the in-place init gives `Initialized` of the old page |
| Theme.Page.Toggle | src/ts/util/index.ts:106-116 | the click handler, callable once attached, gives `Toggled` of the old page by its in-place writes |

## Left out

- Browser behaviour is abstracted away. Layout (`offsetHeight`), `getComputedStyle`, CSS transition rendering and event dispatch are inputs or explicit method calls.
- CSSOM serialisation is not modelled. A style value is the text written (`'0'`, `'500ms'`), not what the browser reads back (`'0px'`, `'0.5s'`).
- Slide.Decimal: covers whole numbers only. `duration` is a `nat`, while JavaScript also accepts fractional or negative numbers there.
- Slide.Decimal / Slide.Ms: always write plain digits. JavaScript writes a number of 10^21 or more in exponent form (`1e+21ms`), and above 2^53 the number it holds is no longer exact, so the text differs for such durations.
- Slide.TimerDelay: covers timers started outside other timers. The HTML standard's 4 ms clamp for timers nested more than five deep does not apply to a call from the page and is not modelled.
- Slide.RunTimers: the extra wait a browser may add to each timer is not modelled. It cannot put the `duration` callback first when the timeout is at least 1, and at a timeout of 0 the model leaves the order to `zeroDelayFirst`.
- Slide.SetPropertyEdits / Slide.SlideUpStartEdits / Slide.SlideUpCollapseEdits / Slide.SlideUpFinishEdits / Slide.SlideDownStartEdits / Slide.SlideDownExpandEdits / Slide.SlideDownFinishEdits / Slide.SlideUpOutcome / Slide.SlideDownKeeps / Slide.AgreeOutside / Slide.Property: property names are independent keys. An `Other` name stands for a property the animator does not write; `Other("height")` is not identified with `Height`. The model does not relate a shorthand to its longhands, so `overflow` is unrelated to `overflow-x`/`overflow-y`, and `padding`, `margin` and `transition` are unrelated to `padding-top`, `margin-top`, `transition-duration` and the rest. The frame clauses of these members hold only for declarations that are neither a shorthand nor a longhand of a property the animation writes. Only the display assignment models the empty string as removal: every other value written is a non-empty literal or number text.
- Overlapping slide calls on the same element are not modelled. The source has no guard against them and defines no result for them.
- Callbacks are numbers, and running one is a log entry. Their effects are not modelled, except whether they throw. That includes a callback that registers another callback while the queue runs: that callback would run at once, in the middle of the loop.
- The later readiness change from 'interactive' to 'complete' is not modelled. The gate only tests for 'loading', and DOMContentLoaded is dispatched while 'interactive'.
- The import-time `onDOMContentLoaded(initThemeToggler)` (`src/ts/util/index.ts:130`) is not a member of its own. It is one `Register` call.
- Theme.Initialized: records only whether a click handler is attached. A second `initThemeToggler` call would attach a second handler, so that one click would toggle twice. The model does not count handlers.
- Races on local storage between tabs are not modelled.
- Theme.Initialized / Theme.Toggled: storage never fails in the model. In a browser, `localStorage` access can throw a `SecurityError`, and `setItem` a `QuotaExceededError`. A throwing `getItem` aborts initialisation before anything is applied. A throwing `setItem` leaves storage with the old theme after the attribute, colours and icon have changed, so Theme.Toggled's agreement does not hold.
- The build scripts and tool configuration of the repository are not part of this model. They only run external command-line tools.
