/** The Angular 5 variant of the widget (src/Angular5/FlashMessage.ts).
    It arms the dismiss timer while it is being constructed, gates the
    mouse and click handlers on `options.interactive === true`, and
    detaches the element when the element reports `transitionend`. */
module FlashTs {
  import opened Js
  import opened Host
  import opened Progress
  import Verbs

  const ErrorType: string := "error"
  const DefaultTheme: string := "default"
  const FlashClass: string := "flash-message"

  /** The options record, once merged over the defaults. */
  datatype Options = Options(
    progress: JsValue,
    interactive: JsValue,
    timeout: Num,
    appearDelay: int,
    removeDelay: int,
    container: string,
    theme: string)

  /** `DEFAULT_OPTIONS`. */
  const DefaultOptions: Options :=
    Options(JBool(false), JBool(true), Finite(8000), 200, 600, ".flash-container", DefaultTheme)

  /** The options object a caller passes: each key may be absent. */
  datatype UserOptions = UserOptions(
    progress: Option<JsValue>,
    interactive: Option<JsValue>,
    timeout: Option<int>,
    appearDelay: Option<int>,
    removeDelay: Option<int>,
    container: Option<string>,
    theme: Option<string>)

  const NoOptions: UserOptions := UserOptions(None, None, None, None, None, None, None)

  /** `setOptions(options)`: `Object.assign({}, DEFAULT_OPTIONS, options)`. */
  function SetOptions(user: UserOptions): Options {
    Options(
      user.progress.GetOr(DefaultOptions.progress),
      user.interactive.GetOr(DefaultOptions.interactive),
      if user.timeout.Some? then Finite(user.timeout.value) else DefaultOptions.timeout,
      user.appearDelay.GetOr(DefaultOptions.appearDelay),
      user.removeDelay.GetOr(DefaultOptions.removeDelay),
      user.container.GetOr(DefaultOptions.container),
      user.theme.GetOr(DefaultOptions.theme))
  }

  /** The second constructor argument: omitted, a category name, or a plain object. */
  datatype TypeArg = Omitted | TypeName(name: string) | PlainObject(options: UserOptions)

  /** The constructor's overload: a plain-object second argument is taken as
      the options and the category becomes `'error'`. */
  function Overload(typeArg: TypeArg, optionsArg: Option<UserOptions>): (string, UserOptions) {
    match typeArg
    case PlainObject(o) => (ErrorType, o)
    case TypeName(t) => (t, optionsArg.GetOr(NoOptions))
    case Omitted => (ErrorType, optionsArg.GetOr(NoOptions))
  }

  /** The `data-timeout` override of `_createMessage`. */
  function TimeoutOverride(dataset: map<string, string>, o: Options): Options {
    if "timeout" in dataset && dataset["timeout"] != "" then o.(timeout := ParseInt(dataset["timeout"])) else o
  }

  datatype Config = Config(message: string, category: string, options: Options)

  /** What the constructor settles from its arguments: the overload,
      `setOptions`, `_composeMessage` for a pre-built element (with the
      `data-progress` reset of the options) and the `data-timeout` override. */
  function Configure(src: Source, typeArg: TypeArg, optionsArg: Option<UserOptions>): (c: Config)
    ensures src.Surface? ==> c.message == DataOr(src.dataset, "message", src.innerHtml)
    ensures src.Surface? ==> c.category == DataOr(src.dataset, "type", ErrorType)
    ensures src.Surface? && "progress" in src.dataset ==>
              c.options == TimeoutOverride(src.dataset, DefaultOptions.(progress := JBool(true)))
    ensures src.Surface? && "progress" !in src.dataset ==>
              c.options == TimeoutOverride(src.dataset, SetOptions(Overload(typeArg, optionsArg).1))
    ensures src.Literal? ==> c.message == src.text
    ensures src.Literal? ==> c.category == (if typeArg.TypeName? then typeArg.name else ErrorType)
    ensures src.Literal? ==> c.options == SetOptions(Overload(typeArg, optionsArg).1)
  {
    var (t, user) := Overload(typeArg, optionsArg);
    var o := SetOptions(user);
    match src
    case Literal(text) =>
      Config(text, t, TimeoutOverride(CreatedDataset(t, text), o))
    case Surface(ds, html) =>
      var o' := if "progress" in ds then SetOptions(NoOptions.(progress := Some(JBool(true)))) else o;
      Config(DataOr(ds, "message", html), DataOr(ds, "type", ErrorType), TimeoutOverride(ds, o'))
  }

  /** The data attributes of the element the notification ends up with. */
  function ElementDataset(src: Source, c: Config): map<string, string> {
    match src
    case Literal(_) => CreatedDataset(c.category, c.message)
    case Surface(ds, _) => ds
  }

  /** `_setTheme`: the theme is `data-theme`, else the option, else `''`;
      a class `<theme>-theme` is added unless it is empty or `'default'`. */
  function ThemeClasses(dataset: map<string, string>, optionTheme: string): (r: set<string>)
    ensures |r| <= 1
    ensures "-theme" !in r && DefaultTheme + "-theme" !in r
    ensures "theme" in dataset && dataset["theme"] != "" ==>
              r == (if dataset["theme"] == DefaultTheme then {} else {dataset["theme"] + "-theme"})
    ensures !("theme" in dataset && dataset["theme"] != "") ==>
              r == (if optionTheme == "" || optionTheme == DefaultTheme then {} else {optionTheme + "-theme"})
  {
    var theme := DataOr(dataset, "theme", optionTheme);
    if |theme| > 0 && theme != DefaultTheme then
      ThemeSuffix(theme, "", "-theme");
      ThemeSuffix(theme, DefaultTheme, "-theme");
      {theme + "-theme"}
    else {}
  }

  /** Two names with the same suffix appended are equal only if the names are. */
  lemma ThemeSuffix(a: string, b: string, suffix: string)
    ensures a + suffix == b + suffix ==> a == b
  {
    if a + suffix == b + suffix {
      assert |a| == |b|;
      assert a == (a + suffix)[..|a|] && b == (b + suffix)[..|b|];
    }
  }

  /** `_hasProgress`: `Boolean(options.progress)`. */
  predicate HasProgress(o: Options) {
    Truthy(o.progress)
  }

  /** `_isInteractive`: `options.interactive === true`. */
  predicate IsInteractive(o: Options) {
    o.interactive == JBool(true)
  }

  predicate PositiveTimeout(o: Options) {
    o.timeout.Finite? && o.timeout.value > 0
  }

  /** The progress bar element, if any: whether it carries the hidden class
      and the width last written to its style. */
  datatype Bar = Bar(present: bool, hidden: bool, width: Option<real>)

  const NoBar: Bar := Bar(false, false, None)
  const NewBar: Bar := Bar(true, false, None)

  /** `$_progress`, `_progress_value`, `_progress_offset` and whether
      `_progress_interval` holds a live interval. */
  datatype Ticker = Ticker(bar: Bar, value: real, offset: int, running: bool)

  /** Everything about one notification that its lifecycle changes. */
  datatype Lifecycle = Lifecycle(
    timers: map<nat, Timer>,   // callbacks pending in window.setTimeout, by handle
    nextTimer: nat,            // the handle the next setTimeout returns
    handle: Option<nat>,       // _c_timeout
    ticker: Ticker,
    visible: bool,             // the element carries the visible class
    listeners: nat)            // transitionend listeners added by _close

  /** The offset only ever moves in steps of 16, and only a ticker with
      progress on and a bar runs, its last value below 100. */
  predicate TickerInv(t: Ticker, o: Options) {
    && t.offset % Period == 0
    && (t.running ==> HasProgress(o) && t.bar.present && t.value < 100.0)
  }

  /** Every pending timer and the stored handle were handed out already, and
      the ticker runs only while a dismiss handle is stored. */
  predicate ValidState(s: Lifecycle, o: Options) {
    && (forall id :: id in s.timers ==> id < s.nextTimer)
    && (s.handle.Some? ==> s.handle.value < s.nextTimer)
    && TickerInv(s.ticker, o)
    && (s.ticker.running ==> s.handle.Some?)
  }

  /** The handles of the dismiss timers still pending. */
  function PendingDismissals(s: Lifecycle): set<nat> {
    set id | id in s.timers && s.timers[id].Dismiss?
  }

  /** `_stopProgress`: with progress on and a bar, hide the bar, drop the
      interval and reset the value; the offset is left alone. */
  function ProgressStopped(t: Ticker, o: Options): (r: Ticker)
    ensures r.offset == t.offset
    ensures HasProgress(o) && t.bar.present ==> !r.running && r.value == 0.0 && r.bar.hidden
    ensures !(HasProgress(o) && t.bar.present) ==> r == t
    ensures TickerInv(t, o) ==> TickerInv(r, o) && !r.running
  {
    if !HasProgress(o) || !t.bar.present then t
    else t.(bar := t.bar.(hidden := true), running := false, value := 0.0)
  }

  /** `_startProgress`: with progress on, make sure a bar exists, stop the
      previous interval, restart from offset 0 and show the bar. */
  function ProgressStarted(t: Ticker, o: Options): (r: Ticker)
    ensures !HasProgress(o) ==> r == t
    ensures HasProgress(o) ==>
              r.running && r.offset == 0 && r.value == 0.0 && r.bar.present && !r.bar.hidden
    ensures TickerInv(t, o) ==> TickerInv(r, o)
  {
    if !HasProgress(o) then t
    else
      var withBar := if t.bar.present then t else t.(bar := NewBar);
      var stopped := ProgressStopped(withBar, o);
      stopped.(offset := 0, bar := stopped.bar.(hidden := false), running := true)
  }

  /** `_setProgress`, one firing of the 16 ms interval: show the previous
      value, compute the next from the offset, advance the offset, and stop
      the first time the value reaches 100. */
  function ProgressTicked(t: Ticker, o: Options): (r: Ticker)
    requires PositiveTimeout(o) && t.running
    ensures r.bar.width == Some(t.value)
    ensures r.offset == t.offset + Period
    ensures TickerInv(t, o) ==>
              (r.running <==> t.offset < o.timeout.value) &&
              (!r.running ==> r.value == 0.0 && r.bar.hidden) &&
              (r.running ==> r.value == Ratio(t.offset, o.timeout.value)) &&
              TickerInv(r, o)
  {
    var shown := t.(bar := t.bar.(width := Some(t.value)),
                    value := Ratio(t.offset, o.timeout.value),
                    offset := t.offset + Period);
    RatioThreshold(t.offset, o.timeout.value);
    if shown.value >= 100.0 then ProgressStopped(shown, o) else shown
  }

  /** The ticker after the interval has fired `k` times, or until it stopped. */
  function TickedTimes(t: Ticker, o: Options, k: nat): Ticker
    requires PositiveTimeout(o)
  {
    if k == 0 then t
    else
      var p := TickedTimes(t, o, k - 1);
      if p.running then ProgressTicked(p, o) else p
  }

  /** A just-started ticker approaching its stop: after `k` ticks, the
      offset is `16 * k` and the value the one computed from the offset
      before, still below 100. */
  lemma {:induction false} TickerRunning(t0: Ticker, o: Options, k: nat)
    requires PositiveTimeout(o) && HasProgress(o)
    requires t0 == ProgressStarted(t0, o)
    requires k < TicksToStop(o.timeout.value)
    ensures var t := TickedTimes(t0, o, k);
      && t.running && t.bar.present && !t.bar.hidden
      && t.offset == Period * k
      && t.value == (if k == 0 then 0.0 else Ratio(Period * (k - 1), o.timeout.value))
      && (k > 0 ==> t.bar.width == Some(if k == 1 then 0.0 else Ratio(Period * (k - 2), o.timeout.value)))
  {
    if k > 0 {
      TickerRunning(t0, o, k - 1);
      var p := TickedTimes(t0, o, k - 1);
      StopsAtTick(o.timeout.value, k);
      RatioThreshold(p.offset, o.timeout.value);
    }
  }

  /** The ticker stops at tick `ceil(timeout / 16) + 1` exactly, hides its
      bar and resets its value, and later ticks do not happen. */
  lemma {:induction false} TickerStops(t0: Ticker, o: Options, k: nat)
    requires PositiveTimeout(o) && HasProgress(o)
    requires t0 == ProgressStarted(t0, o)
    requires k >= TicksToStop(o.timeout.value)
    ensures var t := TickedTimes(t0, o, k);
      && !t.running && t.bar.hidden && t.value == 0.0
      && t.offset == Period * TicksToStop(o.timeout.value)
  {
    var n := TicksToStop(o.timeout.value);
    if k == n {
      TickerRunning(t0, o, k - 1);
      var p := TickedTimes(t0, o, k - 1);
      StopsAtTick(o.timeout.value, k);
      RatioThreshold(p.offset, o.timeout.value);
    } else {
      TickerStops(t0, o, k - 1);
    }
  }

  /** `_run`: restart the progress bar and arm a new dismiss timer whose
      handle overwrites `_c_timeout`; a timer armed earlier stays pending. */
  function Ran(s: Lifecycle, o: Options): (r: Lifecycle)
    ensures r.handle == Some(s.nextTimer) && s.nextTimer in r.timers && r.timers[s.nextTimer] == Dismiss(o.timeout)
    ensures r.ticker == ProgressStarted(s.ticker, o)
    ensures ValidState(s, o) ==>
              && ValidState(r, o)
              && (forall id :: id in s.timers ==> id in r.timers && r.timers[id] == s.timers[id])
              && PendingDismissals(r) == PendingDismissals(s) + {s.nextTimer}
              && s.nextTimer !in PendingDismissals(s)
  {
    s.(timers := s.timers[s.nextTimer := Dismiss(o.timeout)],
       nextTimer := s.nextTimer + 1,
       handle := Some(s.nextTimer),
       ticker := ProgressStarted(s.ticker, o))
  }

  /** `_stop`: with a handle, cancel that one timer, stop the progress bar
      and forget the handle; without one, nothing. */
  function Stopped(s: Lifecycle, o: Options): (r: Lifecycle)
    ensures r.handle.None?
    ensures s.handle.None? ==> r == s
    ensures s.handle.Some? ==> r.timers == s.timers - {s.handle.value} &&
                               r.ticker == ProgressStopped(s.ticker, o)
    ensures ValidState(s, o) ==> ValidState(r, o) && !r.ticker.running
    ensures s.handle.Some? ==> PendingDismissals(r) == PendingDismissals(s) - {s.handle.value}
  {
    if s.handle.None? then s
    else s.(timers := s.timers - {s.handle.value},
            ticker := ProgressStopped(s.ticker, o),
            handle := None)
  }

  /** `_close`: stop the progress bar, drop the visible class and add one
      more `transitionend` listener. The handle is not cleared and no timer
      is cancelled. */
  function Closed(s: Lifecycle, o: Options): (r: Lifecycle)
    ensures r.handle == s.handle && r.timers == s.timers && r.nextTimer == s.nextTimer
    ensures !r.visible && r.listeners == s.listeners + 1
    ensures r.ticker == ProgressStopped(s.ticker, o)
    ensures ValidState(s, o) ==> ValidState(r, o) && !r.ticker.running
  {
    s.(ticker := ProgressStopped(s.ticker, o), visible := false, listeners := s.listeners + 1)
  }

  /** The appear-delay timer fires: the element gets the visible class. */
  function Appeared(s: Lifecycle, id: nat, o: Options): (r: Lifecycle)
    requires id in s.timers
    ensures r.visible && id !in r.timers
    ensures r.handle == s.handle && r.ticker == s.ticker && r.listeners == s.listeners
    ensures ValidState(s, o) ==> ValidState(r, o) && PendingDismissals(r) <= PendingDismissals(s)
  {
    s.(timers := s.timers - {id}, visible := true)
  }

  /** A dismiss timer fires and calls `_close`. */
  function Dismissed(s: Lifecycle, id: nat, o: Options): (r: Lifecycle)
    requires id in s.timers
    ensures r.timers == s.timers - {id} && r.handle == s.handle && r.nextTimer == s.nextTimer
    ensures !r.visible && r.listeners == s.listeners + 1 && r.ticker == ProgressStopped(s.ticker, o)
    ensures ValidState(s, o) ==> ValidState(r, o)
    ensures PendingDismissals(r) == PendingDismissals(s) - {id}
  {
    Closed(s.(timers := s.timers - {id}), o)
  }

  /** The state right after the constructor runs its fields' initialisers. */
  function Initial(o: Options, visible: bool): Lifecycle {
    Lifecycle(map[], 0, None, Ticker(if HasProgress(o) then NewBar else NoBar, 0.0, 0, false), visible, 0)
  }

  /** `_behavior`: `_run` arms the dismiss timer first, then the
      appear-delay timer is armed. */
  function Behaved(s: Lifecycle, o: Options): (r: Lifecycle)
    ensures ValidState(s, o) ==> ValidState(r, o)
  {
    var ran := Ran(s, o);
    ran.(timers := ran.timers[ran.nextTimer := Appear(o.appearDelay)], nextTimer := ran.nextTimer + 1)
  }

  /** The state a constructor leaves: the dismiss timer is handle 0, the
      appear timer handle 1, and the bar runs exactly when progress is on. */
  function Constructed(o: Options, visible: bool): (r: Lifecycle)
    ensures r.timers == map[0 := Dismiss(o.timeout), 1 := Appear(o.appearDelay)]
    ensures r.handle == Some(0) && r.nextTimer == 2
    ensures r.ticker.running <==> HasProgress(o)
    ensures r.visible == visible && r.listeners == 0
    ensures ValidState(r, o)
  {
    Behaved(Initial(o, visible), o)
  }

  /** `_stop` twice in a row is `_stop` once. */
  lemma StopIdempotent(s: Lifecycle, o: Options)
    ensures Stopped(Stopped(s, o), o) == Stopped(s, o)
  {
  }

  /** Two `_run`s without a `_stop` between them (the constructor's and a
      `mouseleave`) orphan the first timer: a later `_stop` cancels only the
      second, and the first can still fire `_close`. */
  lemma OrphanedDismissal(s: Lifecycle, o: Options)
    requires ValidState(s, o) && s.handle.Some? && s.handle.value in PendingDismissals(s)
    ensures var r := Stopped(Ran(s, o), o);
      r.handle.None? && s.handle.value in PendingDismissals(r)
  {
  }

  /** A click closes the message but leaves the dismiss timer pending, and
      when it fires it closes the message a second time. */
  lemma DismissAfterClick(s: Lifecycle, o: Options)
    requires ValidState(s, o) && s.handle.Some? && s.handle.value in PendingDismissals(s)
    ensures var h := s.handle.value;
      var clicked := Closed(s, o);
      h in clicked.timers && Dismissed(clicked, h, o).listeners == s.listeners + 2
  {
  }

  /** Pausing and resuming restarts the bar from zero instead of resuming it. */
  lemma ResumeRestarts(s: Lifecycle, o: Options)
    requires ValidState(s, o) && HasProgress(o)
    ensures var r := Ran(Stopped(s, o), o);
      r.ticker.offset == 0 && r.ticker.value == 0.0 && r.ticker.running
  {
  }

  /** A plain-object second argument gives what omitting the type and
      passing that object as the options gives. */
  lemma PlainObjectIsOptions(src: Source, o: UserOptions, third: Option<UserOptions>)
    ensures Configure(src, PlainObject(o), third) == Configure(src, Omitted, Some(o))
    ensures src.Literal? ==> Configure(src, PlainObject(o), third).category == ErrorType
  {
  }

  /** An element built by the constructor carries its message and category
      in data attributes, and reading them back as a pre-built element gives
      the same message and category (an empty category reads back as
      `'error'`). */
  lemma ComposeRoundTrip(text: string, typeArg: TypeArg, optionsArg: Option<UserOptions>)
    ensures var c := Configure(Literal(text), typeArg, optionsArg);
      var back := Configure(Surface(ElementDataset(Literal(text), c), text), typeArg, optionsArg);
      back.message == c.message &&
      back.category == (if c.category == "" then ErrorType else c.category) &&
      back.options == c.options
  {
  }

  /** A `data-timeout` attribute holding the decimal rendering of `n`
      (optionally followed by a unit) makes `n` the dismiss timeout. */
  lemma TimeoutAttribute(dataset: map<string, string>, html: string, n: int, unit: string,
                         typeArg: TypeArg, optionsArg: Option<UserOptions>)
    requires unit == [] || !IsDigit(unit[0])
    ensures Configure(Surface(dataset["timeout" := Decimal(n) + unit], html), typeArg, optionsArg).options.timeout
            == Finite(n)
  {
    var ds := dataset["timeout" := Decimal(n) + unit];
    var user := Overload(typeArg, optionsArg).1;
    var base := if "progress" in ds then SetOptions(NoOptions.(progress := Some(JBool(true)))) else SetOptions(user);
    assert Configure(Surface(ds, html), typeArg, optionsArg).options == TimeoutOverride(ds, base);
    TimeoutOverrideDecimal(ds, base, n, unit);
  }

  lemma TimeoutOverrideDecimal(ds: map<string, string>, o: Options, n: int, unit: string)
    requires unit == [] || !IsDigit(unit[0])
    requires "timeout" in ds && ds["timeout"] == Decimal(n) + unit
    ensures TimeoutOverride(ds, o).timeout == Finite(n)
  {
    ParseIntDecimal(n, unit);
    assert |Decimal(n)| > 0;
  }

  /** Progress is gated on truthiness and interactivity on strict equality
      with `true`: a constructed message runs its bar for every value of
      `progress` except the falsy ones, and any `interactive` but `true`
      (such as `1` or `'true'`) leaves the handlers unbound. */
  lemma OptionGating(o: Options, v: JsValue, visible: bool)
    ensures Constructed(o.(progress := v), visible).ticker.running <==>
              !(v in {JBool(false), JNum(0), JStr(""), JNull, JUndefined})
    ensures IsInteractive(o.(interactive := v)) <==> v == JBool(true)
  {
    var p := o.(progress := v);
    assert Constructed(p, visible).ticker.running <==> Truthy(v);
  }

  /** The static members of the class before any custom verb is added. */
  const Builtins: map<string, Verbs.Member> :=
    Verbs.Categories + Verbs.Inherited +
    map["create" := Verbs.Builtin, "addCustomVerbs" := Verbs.Builtin,
        "_CONSTANTS" := Verbs.Builtin, "DEFAULT_OPTIONS" := Verbs.Builtin]

  /** The classes `_composeMessage`, `_createMessage` and `_setTheme` add
      to the message element. */
  function MessageClasses(content: Content, category: string, o: Options): set<string>
    reads content.Objects()
  {
    var ds := if content.Text? then CreatedDataset(category, content.text) else content.element.dataset;
    (if content.Text? then {FlashClass} else {}) + {"flash-" + category} + ThemeClasses(ds, o.theme)
  }

  /** `_createMessage` up to the timers: build the element (appending it to
      the container) or mark the pre-built one, then apply the theme. */
  method CreateMessage(content: Content, c: Config, box: Container) returns (e: Element)
    requires box.Valid() && box.attached
    requires content.Text? ==> c.message == content.text
    modifies box, content.Objects()
    ensures box.Valid() && box.attached
    ensures box.children == old(box.children) + (if content.Text? then [e] else [])
    ensures content.Prebuilt? ==>
              e == content.element && e.visible == old(content.element.visible) &&
              e.classes == old(content.element.classes) + MessageClasses(content, c.category, c.options)
    ensures content.Text? ==>
              fresh(e) && !e.visible &&
              e.dataset == CreatedDataset(c.category, c.message) && e.innerHtml == c.message &&
              e.classes == MessageClasses(content, c.category, c.options)
  {
    if content.Prebuilt? {
      e := content.element;
      e.classes := e.classes + {"flash-" + c.category};
    } else {
      e := new Element(CreatedDataset(c.category, c.message), c.message,
                       {FlashClass, "flash-" + c.category}, false);
      box.Append(e);
    }
    e.classes := e.classes + ThemeClasses(e.dataset, c.options.theme);
  }

  /** What the constructor does before `_behavior`: the overload, the
      options, `_createContainer`, and `_createMessage` up to the timers. */
  method Prepare(content: Content, typeArg: TypeArg, optionsArg: Option<UserOptions>, found: Container?)
    returns (c: Config, box: Container, e: Element)
    requires found != null ==> found.Valid()
    modifies found, content.Objects()
    ensures c == Configure(content.Source(), typeArg, optionsArg)
    ensures box.Valid() && box.attached
    ensures found != null && old(found.attached) ==> box == found
    ensures found == null || !old(found.attached) ==> fresh(box)
    ensures box.children ==
              (if found != null && old(found.attached) then old(found.children) else []) +
              (if content.Text? then [e] else [])
    ensures content.Prebuilt? ==>
              e == content.element && e.visible == old(content.element.visible) &&
              e.classes == old(content.element.classes) + MessageClasses(content, c.category, c.options)
    ensures content.Text? ==>
              fresh(e) && !e.visible &&
              e.dataset == CreatedDataset(c.category, c.message) && e.innerHtml == c.message &&
              e.classes == MessageClasses(content, c.category, c.options)
  {
    c := Configure(content.Source(), typeArg, optionsArg);
    box := Acquire(found);
    e := CreateMessage(content, c, box);
  }

  /** One notification: its element, the shared container it was added to,
      its resolved configuration and its lifecycle fields. */
  class Notification {
    const element: Element
    const container: Container
    const message: string
    const category: string
    const options: Options
    const listening: bool           // _bindEvents ran; _unbindEvents never removes them
    var timers: map<nat, Timer>
    var nextTimer: nat
    var handle: Option<nat>
    var bar: Bar
    var progressValue: real
    var progressOffset: int
    var progressInterval: bool
    var transitionListeners: nat

    ghost function State(): Lifecycle
      reads this, element
    {
      Lifecycle(timers, nextTimer, handle,
                Ticker(bar, progressValue, progressOffset, progressInterval),
                element.visible, transitionListeners)
    }

    ghost predicate Valid()
      reads this, element
    {
      ValidState(State(), options)
    }

    /** `new FlashMessage(message, type, options)` with `found` the result of
        `document.querySelector(options.container)`. */
    constructor (content: Content, typeArg: TypeArg, optionsArg: Option<UserOptions>, found: Container?)
      requires found != null ==> found.Valid()
      modifies found, content.Objects()
      ensures Valid()
      ensures var c := Configure(content.Source(), typeArg, optionsArg);
        message == c.message && category == c.category && options == c.options
      ensures listening == IsInteractive(options)
      ensures State() == Constructed(options, element.visible)
      ensures container.Valid() && container.attached
      ensures found != null && old(found.attached) ==> container == found
      ensures found == null || !old(found.attached) ==> fresh(container)
      ensures container.children ==
                (if found != null && old(found.attached) then old(found.children) else []) +
                (if content.Text? then [element] else [])
      ensures content.Prebuilt? ==>
                element == content.element && element.visible == old(content.element.visible) &&
                element.classes == old(content.element.classes) + MessageClasses(content, category, options)
      ensures content.Text? ==>
                fresh(element) && !element.visible &&
                element.dataset == CreatedDataset(category, message) && element.innerHtml == message &&
                element.classes == MessageClasses(content, category, options)
    {
      var c, box, e := Prepare(content, typeArg, optionsArg, found);
      element, container := e, box;
      message, category, options := c.message, c.category, c.options;
      listening := IsInteractive(c.options);
      timers, nextTimer, handle := map[], 0, None;
      bar := if HasProgress(c.options) then NewBar else NoBar;
      progressValue, progressOffset, progressInterval := 0.0, 0, false;
      transitionListeners := 0;
      new;
      assert State() == Initial(options, element.visible);
      Behavior();
    }

    /** `_behavior`. */
    method Behavior()
      requires Valid()
      modifies this
      ensures Valid() && State() == Behaved(old(State()), options)
    {
      Run();
      timers := timers[nextTimer := Appear(options.appearDelay)];
      nextTimer := nextTimer + 1;
    }

    /** `_stopProgress`. */
    method StopProgress()
      modifies this
      ensures State() == old(State()).(ticker := ProgressStopped(old(State()).ticker, options))
    {
      if !HasProgress(options) || !bar.present {
        return;
      }
      bar := bar.(hidden := true);
      progressInterval := false;
      progressValue := 0.0;
    }

    /** `_startProgress`. */
    method StartProgress()
      modifies this
      ensures State() == old(State()).(ticker := ProgressStarted(old(State()).ticker, options))
    {
      if !HasProgress(options) {
        return;
      }
      if !bar.present {
        bar := NewBar;
      }
      StopProgress();
      progressOffset := 0;
      bar := bar.(hidden := false);
      progressInterval := true;
    }

    /** `_setProgress`, run by the interval while it is set. */
    method SetProgress()
      requires Valid() && progressInterval && PositiveTimeout(options)
      modifies this
      ensures Valid()
      ensures State() == old(State()).(ticker := ProgressTicked(old(State()).ticker, options))
    {
      ghost var expected := ProgressTicked(State().ticker, options);
      var v := Ratio(progressOffset, options.timeout.value);
      bar := bar.(width := Some(progressValue));
      progressValue := v;
      progressOffset := progressOffset + Period;
      if v >= 100.0 {
        StopProgress();
      }
      assert State().ticker == expected;
    }

    /** `_run`. */
    method Run()
      requires Valid()
      modifies this
      ensures Valid() && State() == Ran(old(State()), options)
    {
      StartProgress();
      timers := timers[nextTimer := Dismiss(options.timeout)];
      handle := Some(nextTimer);
      nextTimer := nextTimer + 1;
    }

    /** `_stop`. */
    method Stop()
      requires Valid()
      modifies this
      ensures Valid() && State() == Stopped(old(State()), options)
    {
      if handle.Some? {
        timers := timers - {handle.value};
        StopProgress();
        handle := None;
      }
    }

    /** `_close`. */
    method Close()
      requires Valid()
      modifies this, element
      ensures Valid() && State() == Closed(old(State()), options)
      ensures element.classes == old(element.classes)
    {
      StopProgress();
      element.visible := false;
      transitionListeners := transitionListeners + 1;
    }

    /** `destroy()`: `_close`, with the handle and the dismiss timer left as they are. */
    method Destroy()
      requires Valid()
      modifies this, element
      ensures Valid() && State() == Closed(old(State()), options)
      ensures element.classes == old(element.classes)
    {
      Close();
    }

    /** The appear-delay timer `id` fires. */
    method FireAppear(id: nat)
      requires Valid() && id in timers && timers[id].Appear?
      modifies this, element
      ensures Valid() && State() == Appeared(old(State()), id, options)
      ensures element.classes == old(element.classes)
    {
      timers := timers - {id};
      element.visible := true;
    }

    /** The dismiss timer `id` fires. */
    method FireDismiss(id: nat)
      requires Valid() && id in timers && timers[id].Dismiss?
      modifies this, element
      ensures Valid() && State() == Dismissed(old(State()), id, options)
      ensures element.classes == old(element.classes)
    {
      timers := timers - {id};
      Close();
    }

    /** `mouseover` on the element. */
    method MouseOver()
      requires Valid()
      modifies this
      ensures Valid() && State() == if listening then Stopped(old(State()), options) else old(State())
    {
      if listening {
        Stop();
      }
    }

    /** `mouseleave` on the element. */
    method MouseLeave()
      requires Valid()
      modifies this
      ensures Valid() && State() == if listening then Ran(old(State()), options) else old(State())
    {
      if listening {
        Run();
      }
    }

    /** `click` on the element. */
    method Click()
      requires Valid()
      modifies this, element
      ensures Valid() && State() == if listening then Closed(old(State()), options) else old(State())
      ensures element.classes == old(element.classes)
    {
      if listening {
        Close();
      }
    }

    /** `transitionend` on the element: every listener `_close` added runs
        `removeChild` and then `_clear`; the first one detaches the element,
        each later one throws `NotFoundError` before reaching `_clear`.
        Returns how many listeners threw. */
    method TransitionEnd() returns (failures: nat)
      requires container.Valid()
      modifies container
      ensures container.Valid()
      ensures var removed := transitionListeners > 0 && element in old(container.children);
        && failures == (if removed then transitionListeners - 1 else transitionListeners)
        && container.children == (if removed then RemoveFirst(old(container.children), element)
                                  else old(container.children))
        && container.attached == (if removed then container.children != [] else old(container.attached))
    {
      ghost var present := element in container.children;
      failures := 0;
      var k := 0;
      while k < transitionListeners
        invariant 0 <= k <= transitionListeners
        invariant container.Valid()
        invariant k == 0 ==> container.children == old(container.children) &&
                             container.attached == old(container.attached) && failures == 0
        invariant k > 0 && present ==>
                    failures == k - 1 && container.children == RemoveFirst(old(container.children), element) &&
                    container.attached == (container.children != [])
        invariant k > 0 && !present ==>
                    failures == k && container.children == old(container.children) &&
                    container.attached == old(container.attached)
        invariant k > 0 ==> element !in container.children
      {
        var removed := container.RemoveChild(element);
        if removed {
          container.ClearIfEmpty();
        } else {
          failures := failures + 1;
        }
        k := k + 1;
      }
    }
  }
}
