# flashjs notification lifecycle in Dafny

flashjs shows toast notifications ("flash messages") in a browser page. A
notification is a `div` inside a shared `.flash-container`. It fades in
after an appear delay and dismisses itself after a timeout. Optionally it
shows a progress bar that fills every 16 ms. When interactive, hovering
pauses it, leaving resumes it and a click closes it. The repository holds
two near-duplicate implementations that differ in when they arm the
dismiss timer and how they remove the element:

- the Angular 5 class (`src/Angular5/FlashMessage.ts`), modelled in module
  `FlashTs`: it arms the dismiss timer during construction and detaches the
  element on `transitionend`;
- the plain class (`src/FlashMessage.js`), modelled in module `FlashJs`: it
  arms the dismiss timer only when the appear delay fires and detaches the
  element `remove_delay` ms after `_close`.

The host is explicit state (module `Host`). An `Element` carries its data
attributes, its class set and a visible flag. A `Container` is the sequence
of its children plus an `attached` flag. Timers are a map from handle to
the pending callback (`Appear`, `Dismiss`, `Removal`). Each notification
counts out its own handles from 0. Timer firings and user events are
methods the caller invokes (`FireAppear`, `FireDismiss`, `FireRemoval`,
`SetProgress`/`Tick`, `MouseOver`, `MouseLeave`, `Click`, `TransitionEnd`).

Each variant has a pure specification over a `Lifecycle` value (pending
timers, the stored `_c_timeout` handle, the progress ticker, visibility and,
for Angular 5, the number of `transitionend` listeners). It also has a
`Notification` class whose fields are the source's fields. The lifecycle
methods (`Behavior`, `Run`, `Stop`, `Close`, `Destroy`, the timer firings
and the event handlers) keep `Valid()` and ensure
`State() == Spec(old(State()), options)` for their specification function.
`StartProgress` and `StopProgress` ensure only that the ticker becomes
`ProgressStarted` / `ProgressStopped` of the old ticker, with the rest of
the state unchanged; they are helpers of those methods. `TransitionEnd` and
`FireRemoval` state what they do to the container; `FireRemoval` also drops
its own timer. The methods that touch the element leave its class set as
it was. The lemmas state the source's properties about the specification
functions. Module `Progress` holds the tick arithmetic shared by both
tickers, `Verbs` the `addCustomVerbs` registry and `Js` the JavaScript
facts used (truthiness, `parseInt`, capitalisation). `Scenarios` drives
whole lifecycles event by event.

Behaviours of the code that the model keeps and proves:

- Neither `_close` clears the dismiss handle or cancels the dismiss timer
  (`FlashTs.Closed`, `FlashJs.Closed`). A click therefore leaves the timer
  pending, and it closes the element a second time later
  (`DismissAfterClick` in both variants). In Angular 5, when that timer
  fires before the fade-out ends, the element carries two `transitionend`
  listeners and the second one's `removeChild` throws
  (`Scenarios.ClickThenStaleDismiss`). In the plain class a second removal
  is armed and finds the element gone (`Scenarios.DoubleRemoval`).
- `_run` overwrites the handle without cancelling the timer it held. A
  `mouseleave` before the plain class's appear delay therefore orphans a
  dismiss timer that `_stop` can never cancel
  (`FlashJs.EarlyLeaveOrphans`, `Scenarios.EarlyLeave`).
- The Angular 5 class arms the dismiss timer during construction, before
  the appear delay (`FlashTs.Constructed`); the plain class arms it only
  when the appear delay fires (`FlashJs.Constructed`).
- Each tick computes its value from the offset before adding 16. In exact
  arithmetic a ticker started at offset 0 therefore stops at tick
  `ceil(timeout / 16) + 1` (`Progress.TicksToStop`, `FlashTs.TickerStops`,
  `FlashJs.TickerStops`). A 160 ms bar is still running after 10 ticks and
  stops at tick 11 (`Scenarios.ShortBar`). The code rounds with
  `toFixed(2)`, which can stop one tick earlier (see "Left out").
- Angular 5's `_stopProgress` leaves `_progress_offset` alone; only the
  next `_startProgress` resets it (`FlashTs.ProgressStopped`). The plain
  class keeps the offset in a closure that the next start replaces.
- `destroy` in the plain class sets `remove_delay` to 0 and still goes
  through `setTimeout(…, 0)` (`FlashJs.Notification.Destroy`,
  `Scenarios.DestroyNow`). Angular 5's `destroy` is `_close` and waits for
  `transitionend`.
- The Angular 5 defaults declare `onShow`, `onClick` and `onClose`, and
  neither class ever calls them; the plain class's defaults do not declare
  them. The model has no callbacks.
- `_createContainer` creates a container whenever the selector finds none
  in the document. A pre-built element that is not one of its children is
  never appended, so its `transitionend` listener's `removeChild` throws
  before `_clear` runs, and the empty container stays in the document
  (`Scenarios.PrebuiltOutsideContainer`) until another message that was
  appended to it is removed.

## Model

| member | source | states |
|---|---|---|
| Js.Truthy | src/FlashMessage.js:197-199 | the definition of `Boolean(v)` for option values; its use is stated by `FlashTs.OptionGating` (every falsy value turns the bar off) |
| Js.ParseInt | src/Angular5/FlashMessage.ts:200 | the definition of `parseInt(s, 10)`; its properties are stated by `Js.ParseIntDecimal`, `Js.ParseIntSkipsSpace`, `Js.TrimStart` and `Js.LeadingDigits` |
| Js.ParseIntDecimal | src/Angular5/FlashMessage.ts:199-201 | `parseInt(s, 10)` reads back the decimal rendering of every integer, whatever non-digit text follows it |
| Js.ParseIntSkipsSpace | src/FlashMessage.js:112-113 | leading JavaScript white space never changes what `parseInt` reads |
| Js.TrimStart | src/FlashMessage.js:112-113 | the part `parseInt` starts from is a suffix of the attribute that does not begin with white space, and everything dropped before it is white space |
| Js.LeadingDigits | src/FlashMessage.js:112-113 | the digits `parseInt` reads are the longest all-digit prefix: they are followed by a non-digit or the end |
| Js.Capitalized | src/Angular5/FlashMessage.ts:292-294 | `_getCapitalizedEventName` keeps the length, upper-cases the first character and keeps the rest |
| Js.CapitalizedIdempotent | src/FlashMessage.js:193-195 | capitalising an event name twice is capitalising it once |
| Host.DataOr | src/Angular5/FlashMessage.ts:163-164 | the definition of `dataset[key] \|\| fallback`; `FlashTs.ComposeRoundTrip` and `FlashJs.ComposeRoundTrip` state that the attributes written on a built element read back through it |
| Host.RemoveFirst | src/Angular5/FlashMessage.ts:237-240 | removing a child drops exactly one occurrence (multiset difference), and nothing when it is absent |
| Host.RemoveFirstDistinct | src/FlashMessage.js:146-150 | after `removeChild` the element is no longer a child and the children stay without repetitions |
| Host.Container.constructor | src/Angular5/FlashMessage.ts:152-158 | a created container is attached and empty |
| Host.Container.Append | src/Angular5/FlashMessage.ts:209-211 | `_append` adds the element as the last child |
| Host.Container.RemoveChild | src/FlashMessage.js:147 | `removeChild` succeeds exactly when the element is a child and then removes it; otherwise (`NotFoundError`) nothing changes |
| Host.Container.ClearIfEmpty | src/Angular5/FlashMessage.ts:243-247 | `_clear` detaches the container exactly when it has no children |
| Host.Acquire | src/Angular5/FlashMessage.ts:150-160 | an attached container found by the selector is reused; a missing or detached one is replaced by a fresh, empty, attached container |
| Progress.RatioThreshold | src/Angular5/FlashMessage.ts:319-327 | the stop test `value >= 100` holds exactly when the offset has reached the timeout |
| Progress.RatioMonotone | src/FlashMessage.js:212-218 | the computed percentage never decreases as the offset grows |
| Progress.TicksToStop | src/Angular5/FlashMessage.ts:319-327 | the stopping tick `n` satisfies `16 (n - 2) < timeout <= 16 (n - 1)` |
| Progress.StopsAtTick | src/FlashMessage.js:212-218 | the `k`-th tick's value reaches 100 exactly when `k >= TicksToStop(timeout)` |
| Verbs.Register | src/Angular5/FlashMessage.ts:122-124 | the definition of one step of `addCustomVerbs`; `Verbs.WithVerbs` states its effect in closed form and `Verbs.WithVerbsKeepsExisting` that a taken name is kept |
| Verbs.WithVerbs | src/Angular5/FlashMessage.ts:117-126 | registering names leaves every existing member and adds a factory of its own category for each new name, in closed form |
| Verbs.WithVerbsIdempotent | src/FlashMessage.js:72-78 | registering the same names again changes nothing |
| Verbs.WithVerbsKeepsExisting | src/Angular5/FlashMessage.ts:122-124 | an existing member (such as `success`) is never overwritten; a new name gets `Verb(name)`; other names stay absent |
| Verbs.Registry.AddCustomVerbs | src/FlashMessage.js:72-78 | the loop leaves the table equal to `WithVerbs` of the old table; with no names the table is unchanged |
| FlashTs.SetOptions | src/Angular5/FlashMessage.ts:138-141 | the definition of `setOptions`: every option the caller gives, the default for the others; `FlashTs.Configure` states where the constructor uses it |
| FlashTs.Overload | src/Angular5/FlashMessage.ts:69-72 | the definition of the plain-object overload; `FlashTs.PlainObjectIsOptions` states that a plain object acts as an omitted type plus those options |
| FlashTs.TimeoutOverride | src/Angular5/FlashMessage.ts:199-201 | the definition of the `data-timeout` override; `FlashTs.TimeoutAttribute` states that a decimal attribute sets that timeout |
| FlashTs.HasProgress | src/Angular5/FlashMessage.ts:296-298 | the definition of `_hasProgress`; `FlashTs.OptionGating` states for every value when it holds, and `FlashTs.Constructed` that the bar runs exactly then |
| FlashTs.IsInteractive | src/Angular5/FlashMessage.ts:288-290 | the definition of `_isInteractive`; `FlashTs.OptionGating` states that it holds exactly for `true` itself |
| FlashTs.MessageClasses | src/Angular5/FlashMessage.ts:168-194 | the definition of the classes the element gets; `FlashTs.CreateMessage` states that the element carries them and `FlashTs.ThemeClasses` what the theme part holds |
| FlashTs.Configure | src/Angular5/FlashMessage.ts:64-93 | a pre-built element gives message `data-message`/innerHTML, type `data-type`/`'error'`, and options that are the defaults plus `progress: true` when it has `data-progress`, else the caller's merged over the defaults, then the `data-timeout` override; literal text keeps the message, takes the given type or `'error'` when it is omitted, and the caller's options merged over the defaults |
| FlashTs.PlainObjectIsOptions | src/Angular5/FlashMessage.ts:69-72 | a plain-object second argument behaves as omitted type plus those options; the type becomes `'error'` |
| FlashTs.ComposeRoundTrip | src/Angular5/FlashMessage.ts:171-177 | the data attributes written on a built element read back as the same message, type (empty becomes `'error'`) and options |
| FlashTs.TimeoutAttribute | src/Angular5/FlashMessage.ts:199-201 | a `data-timeout` holding the decimal `n` (with an optional unit) makes `n` the timeout, whatever `data-progress` says |
| FlashTs.ThemeClasses | src/Angular5/FlashMessage.ts:339-344 | at most one theme class is added, never `-theme` or `default-theme`; a non-empty `data-theme` wins over the option, which is used only when the attribute is missing or empty |
| FlashTs.OptionGating | src/Angular5/FlashMessage.ts:288-298 | for every option value: a constructed message runs its bar exactly when `progress` is not one of the falsy values, and is interactive exactly when `interactive` is `true` itself |
| FlashTs.ProgressStopped | src/Angular5/FlashMessage.ts:329-337 | with progress on and a bar: hidden, not running, value 0, offset untouched; otherwise no change |
| FlashTs.ProgressStarted | src/Angular5/FlashMessage.ts:306-317 | with progress on: a bar exists and is shown, offset and value 0, interval running; with progress off no change |
| FlashTs.ProgressTicked | src/Angular5/FlashMessage.ts:319-327 | a tick shows the previous value and adds 16 to the offset; it keeps running exactly while the offset before was below the timeout, and keeps the ticker invariant |
| FlashTs.TickerRunning | src/Angular5/FlashMessage.ts:319-327 | before its stopping tick, after `k` ticks the ticker runs at offset `16 k` with value `Ratio(16 (k - 1))`, below 100, the bar one tick behind |
| FlashTs.TickerStops | src/Angular5/FlashMessage.ts:319-327 | from tick `ceil(timeout / 16) + 1` on, the ticker is stopped, the bar hidden, the value 0 |
| FlashTs.Ran | src/Angular5/FlashMessage.ts:218-221 | `_run` restarts the bar and stores a new dismiss handle; every earlier timer stays pending, so the pending dismissals grow by one |
| FlashTs.Stopped | src/Angular5/FlashMessage.ts:223-229 | `_stop` with a handle cancels exactly that timer, stops the bar and clears the handle; without one it changes nothing |
| FlashTs.StopIdempotent | src/Angular5/FlashMessage.ts:223-229 | `_stop` twice is `_stop` once |
| FlashTs.Closed | src/Angular5/FlashMessage.ts:231-241 | `_close` stops the bar, drops the visible class and adds a `transitionend` listener; handle and timers unchanged |
| FlashTs.OrphanedDismissal | src/Angular5/FlashMessage.ts:218-221 | after a second `_run`, a `_stop` clears the handle but the first dismiss timer is still pending |
| FlashTs.DismissAfterClick | src/Angular5/FlashMessage.ts:231-241 | a click leaves the dismiss timer pending; when it fires, a second listener is added |
| FlashTs.ResumeRestarts | src/Angular5/FlashMessage.ts:306-317 | pausing then resuming restarts the bar from offset and value 0 |
| FlashTs.Appeared | src/Angular5/FlashMessage.ts:213-216 | the appear timer adds the visible class and touches neither the handle nor the ticker |
| FlashTs.Dismissed | src/Angular5/FlashMessage.ts:220 | a firing dismiss timer is consumed; as `_close` it hides the element, stops the bar and adds a listener, keeping the handle |
| FlashTs.Behaved | src/Angular5/FlashMessage.ts:213-216 | `_behavior` keeps the lifecycle invariant |
| FlashTs.Constructed | src/Angular5/FlashMessage.ts:213-216 | after construction the dismiss timer is handle 0 and stored, the appear timer is handle 1, the bar runs exactly when progress is on |
| FlashTs.CreateMessage | src/Angular5/FlashMessage.ts:171-195 | a built element is fresh, hidden, carries `data-type`/`data-message`, the flash and type classes, and is appended; a pre-built one gets the type and theme classes |
| FlashTs.Prepare | src/Angular5/FlashMessage.ts:64-93 | the constructor's work before `_behavior`: the configuration is `Configure` of the arguments, the container is reused or created, and the element is built and appended or the pre-built one is classed |
| FlashTs.Notification.constructor | src/Angular5/FlashMessage.ts:64-93 | the resolved configuration, `listening` exactly when interactive, the `Constructed` state, and the container reused or created with the new element appended |
| FlashTs.Notification.Behavior | src/Angular5/FlashMessage.ts:213-216 | the state becomes `Behaved` of the old one |
| FlashTs.Notification.StopProgress | src/Angular5/FlashMessage.ts:329-337 | the ticker becomes `ProgressStopped` of the old one, nothing else changes |
| FlashTs.Notification.StartProgress | src/Angular5/FlashMessage.ts:306-317 | the ticker becomes `ProgressStarted` of the old one, nothing else changes |
| FlashTs.Notification.SetProgress | src/Angular5/FlashMessage.ts:319-327 | the ticker becomes `ProgressTicked` of the old one and stays valid |
| FlashTs.Notification.Run | src/Angular5/FlashMessage.ts:218-221 | the state becomes `Ran` of the old one |
| FlashTs.Notification.Stop | src/Angular5/FlashMessage.ts:223-229 | the state becomes `Stopped` of the old one |
| FlashTs.Notification.Close | src/Angular5/FlashMessage.ts:231-241 | the state becomes `Closed` of the old one; the element's classes other than the visible one are kept |
| FlashTs.Notification.Destroy | src/Angular5/FlashMessage.ts:143-145 | `destroy` is `_close` |
| FlashTs.Notification.FireAppear | src/Angular5/FlashMessage.ts:215 | the state becomes `Appeared` |
| FlashTs.Notification.FireDismiss | src/Angular5/FlashMessage.ts:220 | the state becomes `Dismissed` |
| FlashTs.Notification.MouseOver | src/Angular5/FlashMessage.ts:251 | `_stop` when the handlers are bound, otherwise nothing |
| FlashTs.Notification.MouseLeave | src/Angular5/FlashMessage.ts:252 | `_run` when the handlers are bound, otherwise nothing |
| FlashTs.Notification.Click | src/Angular5/FlashMessage.ts:253 | `_close` when the handlers are bound, otherwise nothing |
| FlashTs.Notification.TransitionEnd | src/Angular5/FlashMessage.ts:237-240 | the first listener removes the element and clears an emptied container; every other listener throws, and the count of those is returned |
| FlashJs.Merge | src/FlashMessage.js:23 | the definition of `Object.assign({}, DEFAULT_OPTIONS, options)`; `FlashJs.Configure` and `FlashJs.DataProgressIgnored` state where it decides the options |
| FlashJs.Overload | src/FlashMessage.js:8-11 | the definition of the plain-object overload; `FlashJs.PlainObjectIsOptions` states that a plain object acts as an omitted type plus those options |
| FlashJs.TimeoutOverride | src/FlashMessage.js:112-113 | the definition of the `data-timeout` override; `FlashJs.TimeoutAttribute` states that a decimal attribute sets that timeout |
| FlashJs.HasProgress | src/FlashMessage.js:197-199 | the definition of `_hasProgress`; `FlashJs.ProgressStarted` and `FlashJs.ProgressStopped` state that nothing happens without it |
| FlashJs.Configure | src/FlashMessage.js:7-33 | a pre-built element gives message `data-message`/innerHTML and type `data-type`/`'error'`, and options that are the caller's merged over the defaults, then the `data-timeout` override; literal text keeps the message, takes the given type or `'error'` when it is omitted, and the caller's options merged over the defaults |
| FlashJs.PlainObjectIsOptions | src/FlashMessage.js:8-11 | a plain-object second argument behaves as omitted type plus those options; the type becomes `'error'` |
| FlashJs.ComposeRoundTrip | src/FlashMessage.js:100-109 | the data attributes written on a built element read back as the same message, type (empty becomes `'error'`) and options |
| FlashJs.DataProgressIgnored | src/FlashMessage.js:94-98 | a `data-progress` attribute has no effect: progress is the caller's option or `false` |
| FlashJs.TimeoutAttribute | src/FlashMessage.js:112-113 | a `data-timeout` holding the decimal `n` (with an optional unit) makes `n` the timeout |
| FlashJs.ProgressStopped | src/FlashMessage.js:222-228 | with progress on: hidden, not running, value `null`, width and offset kept; otherwise no change |
| FlashJs.ProgressStarted | src/FlashMessage.js:207-219 | with progress on: shown, running, a fresh offset 0 and value `null`; otherwise no change |
| FlashJs.ProgressTicked | src/FlashMessage.js:212-218 | a tick writes the previous value as the width (a `null` one changes nothing) and adds 16; it keeps running exactly while the offset before was below the timeout |
| FlashJs.TickerRunning | src/FlashMessage.js:207-219 | before its stopping tick, after `k` ticks the ticker runs at offset `16 k`, value `Ratio(16 (k - 1))`, and the width lags two ticks |
| FlashJs.TickerStops | src/FlashMessage.js:207-219 | from tick `ceil(timeout / 16) + 1` on, the ticker is stopped, the bar hidden, the value `null` |
| FlashJs.Ran | src/FlashMessage.js:130-133 | `_run` restarts the bar and stores a new dismiss handle; earlier timers stay pending and the pending dismissals grow by one |
| FlashJs.Stopped | src/FlashMessage.js:135-141 | `_stop` with a handle cancels exactly that timer, stops the bar and clears the handle; without one it changes nothing |
| FlashJs.StopIdempotent | src/FlashMessage.js:135-141 | `_stop` twice is `_stop` once |
| FlashJs.Closed | src/FlashMessage.js:143-151 | `_close` drops the visible class and stops the bar at once but only arms a removal timer; handle and dismiss timers unchanged |
| FlashJs.Appeared | src/FlashMessage.js:123-128 | the visible class, the new dismiss handle and the progress start come together when the appear timer fires |
| FlashJs.Dismissed | src/FlashMessage.js:132 | a firing dismiss timer is consumed; as `_close` it hides the element, stops the bar and arms a removal, keeping the handle |
| FlashJs.Behaved | src/FlashMessage.js:123-128 | `_behavior` keeps the lifecycle invariant |
| FlashJs.Constructed | src/FlashMessage.js:123-128 | after construction only the appear timer is pending: no dismiss timer, no handle, no running bar |
| FlashJs.EarlyLeaveOrphans | src/FlashMessage.js:130-133 | a `mouseleave` before the appear delay leaves two dismiss timers pending, and `_stop` cancels only the later one |
| FlashJs.DismissAfterClick | src/FlashMessage.js:143-151 | a click leaves the dismiss timer pending; when it fires a second removal is armed |
| FlashJs.ResumeRestarts | src/FlashMessage.js:207-211 | pausing then resuming restarts the bar from a fresh offset 0 |
| FlashJs.CreateMessage | src/FlashMessage.js:100-109 | a built element is fresh, hidden, carries `data-type`/`data-message` and the flash and type classes, and is appended; a pre-built one gets the type class |
| FlashJs.Prepare | src/FlashMessage.js:7-33 | the constructor's work before `_behavior`: the configuration is `Configure` of the arguments, the container is reused or created, and the element is built and appended or the pre-built one is classed |
| FlashJs.Notification.constructor | src/FlashMessage.js:7-33 | the resolved configuration, the `Constructed` state, and the container reused or created with the new element appended |
| FlashJs.Notification.Behavior | src/FlashMessage.js:123-128 | the state becomes `Behaved` of the old one |
| FlashJs.Notification.StopProgress | src/FlashMessage.js:222-228 | the ticker becomes `ProgressStopped` of the old one |
| FlashJs.Notification.StartProgress | src/FlashMessage.js:207-211 | the ticker becomes `ProgressStarted` of the old one |
| FlashJs.Notification.Tick | src/FlashMessage.js:212-218 | the ticker becomes `ProgressTicked` of the old one and stays valid |
| FlashJs.Notification.Run | src/FlashMessage.js:130-133 | the state becomes `Ran` of the old one |
| FlashJs.Notification.Stop | src/FlashMessage.js:135-141 | the state becomes `Stopped` of the old one |
| FlashJs.Notification.Close | src/FlashMessage.js:143-151 | the state becomes `Closed` of the old one; the element's classes other than the visible one are kept |
| FlashJs.Notification.Destroy | src/FlashMessage.js:80-83 | `remove_delay` becomes 0, then the state becomes `Closed` under the new options |
| FlashJs.Notification.FireAppear | src/FlashMessage.js:124-127 | the state becomes `Appeared` |
| FlashJs.Notification.FireDismiss | src/FlashMessage.js:132 | the state becomes `Dismissed` |
| FlashJs.Notification.FireRemoval | src/FlashMessage.js:146-150 | the element leaves the container when it is a child and an emptied container is detached; otherwise `removeChild` throws and nothing changes |
| FlashJs.Notification.MouseOver | src/FlashMessage.js:162 | always `_stop` |
| FlashJs.Notification.MouseLeave | src/FlashMessage.js:163 | always `_run` |
| FlashJs.Notification.Click | src/FlashMessage.js:164 | always `_close` |
| Scenarios.SharedContainer | src/Angular5/FlashMessage.ts:150-160 | two messages share one container, which stays while one child is left and is detached after the last |
| Scenarios.TwoMessages | src/Angular5/FlashMessage.ts:150-160 | the second message finds and reuses the first one's container |
| Scenarios.ClickThenStaleDismiss | src/Angular5/FlashMessage.ts:231-241 | click, then the stale dismiss timer before the fade-out ends: one of the two `transitionend` listeners throws, and the emptied container is detached |
| Scenarios.ClickedBeforeFadeOut | src/Angular5/FlashMessage.ts:231-241 | after a click and the stale dismiss timer, two `transitionend` listeners wait and the element is still the only child |
| Scenarios.PrebuiltOutsideContainer | src/Angular5/FlashMessage.ts:237-247 | a pre-built element outside the container leaves an empty attached container behind |
| Scenarios.NonInteractiveIgnoresClick | src/Angular5/FlashMessage.ts:204-206 | with `interactive: 1` a click and a hover change nothing |
| Scenarios.EarlyLeave | src/FlashMessage.js:123-133 | an early `mouseleave` yields two pending dismiss timers and `mouseover` cancels one |
| Scenarios.NothingBeforeAppear | src/FlashMessage.js:123-128 | before the appear delay there is no dismiss timer and the element is not visible |
| Scenarios.DestroyNow | src/FlashMessage.js:80-83 | `destroy` arms a 0 ms removal that detaches the element and the emptied container |
| Scenarios.DoubleRemoval | src/FlashMessage.js:143-151 | click, then the stale dismiss timer: the second removal finds the element gone |
| Scenarios.ClickedThenDismissed | src/FlashMessage.js:143-151 | after a click and the stale dismiss timer, two removal timers are pending and the element is still the only child |
| Scenarios.TimeoutFromMarkup | src/FlashMessage.js:112-113 | `data-timeout="500"` gives a 500 ms timeout in both variants |
| Scenarios.ShortBar | src/Angular5/FlashMessage.ts:319-327 | a started 160 ms bar is still running after 10 ticks and has stopped after 11 |
| Scenarios.BuiltinFacts | src/Angular5/FlashMessage.ts:101-116 | `success` and `create` are static members before registration and `danger` is not |
| Scenarios.InheritedNeverReplaced | src/Angular5/FlashMessage.ts:117-126 | for every list of names, registering never replaces a name the class inherits, in either variant |
| Scenarios.RegisterVerbs | src/Angular5/FlashMessage.ts:117-126 | registering `success`, `danger`, `create`, `danger` adds only a `danger` factory |
| Scenarios.RegisterOver | src/FlashMessage.js:72-78 | over any table lacking `danger`, registration adds its factory and keeps `success` and `create` |

## Left out

- DOM work itself: element creation, `innerHTML`, `insertBefore` versus `appendChild`, and the bar's `style.width` string. The model keeps only data attributes, class sets, a visible flag, the bar's hidden flag and width, and the container's children.
- Configurable class names (`options.classes`): the visible, container, flash, progress and hidden classes are flags or fixed strings in the model. So is Angular 5's literal `'is-hidden'` in `_stopProgress`.
- Thumbnails (`options.thumb`, `has-thumb`), because they are DOM decoration with no lifecycle effect.
- Real timers, `setInterval` and `transitionend` delivery: firings are method calls made by the caller, and time does not pass.
- Event binding and unbinding, the `attachEvent` fallback and the wrapper errors they throw. The handlers are bound once (Angular 5: only when interactive) and never removed, since `_unbindEvents` passes fresh closures.
- FlashTs.Notification.SetProgress: requires a positive finite timeout and uses exact arithmetic, because `toFixed(2)` rounding, string comparison and division by zero or NaN are not modelled. Rounding can end the bar one tick before the exact stopping tick: with a 20001 ms timeout the value at offset 20000 renders as `100.00`, so the code stops at tick 1251 where the model stops at tick 1252.
- FlashJs.Notification.Tick: requires a positive finite timeout and uses exact arithmetic, for the same reason and with the same one-tick difference.
- Progress.TicksToStop: exact arithmetic; with `toFixed(2)` the code can stop one tick earlier, as above.
- `setOptions` called again after construction: the Angular 5 options are fixed once the constructor has resolved them. The model therefore loses one behaviour. Calling `setOptions({progress: false})` while the bar runs makes `_stopProgress` return early, because `_hasProgress()` is false. The interval then runs for ever, which the model's ticker invariant (a running ticker has progress on) rules out.
- The debug instance method `create()` with `console.log`, and the one-line static factories (`create`, `success`, `warning`, `error`, `info`). The factories appear only as taken names in the verb registry.
- The `onShow`, `onClick` and `onClose` options, which the code never calls.
- `document.querySelector(options.container)`: the constructor takes its result as a parameter.
- A `null` type argument, for which `type.constructor` throws. An omitted or `undefined` type takes the default `'error'` (`Omitted`).
- Js.ParseInt: the result is an unbounded integer. JavaScript numbers lose precision above 2^53, so very long digit strings in `data-timeout` read differently there.
- Static names that are not in the registry's table of taken names, such as `caller` and `arguments`, whose getters throw on a class: the registry treats every name outside the table as free.
- The `./Flash` import of the plain class, which is not part of this model, and the webpack build configuration.
