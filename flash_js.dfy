/** The plain JavaScript variant of the widget (src/FlashMessage.js). It
    shows the message and starts the countdown only when the appear delay
    elapses, always binds the mouse and click handlers, and detaches the
    element `remove_delay` milliseconds after `_close`. */
module FlashJs {
  import opened Js
  import opened Host
  import opened Progress
  import Verbs

  const ErrorType: string := "error"
  const FlashClass: string := "flash-message"

  /** The options record, once merged over the defaults. */
  datatype Options = Options(
    progress: JsValue,
    timeout: Num,
    appearDelay: int,
    removeDelay: int,
    container: string)

  /** `DEFAULT_OPTIONS`. */
  const DefaultOptions: Options := Options(JBool(false), Finite(8000), 200, 600, ".flash-container")

  /** The options object a caller passes: each key may be absent. */
  datatype UserOptions = UserOptions(
    progress: Option<JsValue>,
    timeout: Option<int>,
    appearDelay: Option<int>,
    removeDelay: Option<int>,
    container: Option<string>)

  const NoOptions: UserOptions := UserOptions(None, None, None, None, None)

  /** `Object.assign({}, DEFAULT_OPTIONS, options)`. */
  function Merge(user: UserOptions): Options {
    Options(
      user.progress.GetOr(DefaultOptions.progress),
      if user.timeout.Some? then Finite(user.timeout.value) else DefaultOptions.timeout,
      user.appearDelay.GetOr(DefaultOptions.appearDelay),
      user.removeDelay.GetOr(DefaultOptions.removeDelay),
      user.container.GetOr(DefaultOptions.container))
  }

  /** The second constructor argument: omitted, a category name, or a plain object. */
  datatype TypeArg = Omitted | TypeName(name: string) | PlainObject(options: UserOptions)

  /** The constructor's overload: a plain-object second argument is taken as
      the options and the category becomes `'error'`. */
  function Overload(typeArg: TypeArg, optionsArg: Option<UserOptions>): (string, UserOptions) {
    match typeArg
    case PlainObject(o) => (ErrorType, o)
    case TypeName(t) => (t, optionsArg.GetOr(NoOptions))
    case Omitted => (ErrorType, optionsArg.GetOr(NoOptions))
  }

  /** The `data-timeout` override of `_createMessage`. */
  function TimeoutOverride(dataset: map<string, string>, o: Options): Options {
    if "timeout" in dataset && dataset["timeout"] != "" then o.(timeout := ParseInt(dataset["timeout"])) else o
  }

  datatype Config = Config(message: string, category: string, options: Options)

  /** What the constructor settles from its arguments: the overload,
      `_composeMessage` for a pre-built element, the merge of the options
      and the `data-timeout` override. */
  function Configure(src: Source, typeArg: TypeArg, optionsArg: Option<UserOptions>): (c: Config)
    ensures src.Surface? ==> c.message == DataOr(src.dataset, "message", src.innerHtml)
    ensures src.Surface? ==> c.category == DataOr(src.dataset, "type", ErrorType)
    ensures src.Surface? ==> c.options == TimeoutOverride(src.dataset, Merge(Overload(typeArg, optionsArg).1))
    ensures src.Literal? ==> c.message == src.text
    ensures src.Literal? ==> c.category == (if typeArg.TypeName? then typeArg.name else ErrorType)
    ensures src.Literal? ==> c.options == Merge(Overload(typeArg, optionsArg).1)
  {
    var (t, user) := Overload(typeArg, optionsArg);
    var o := Merge(user);
    match src
    case Literal(text) =>
      Config(text, t, TimeoutOverride(CreatedDataset(t, text), o))
    case Surface(ds, html) =>
      Config(DataOr(ds, "message", html), DataOr(ds, "type", ErrorType), TimeoutOverride(ds, o))
  }

  /** The data attributes of the element the notification ends up with. */
  function ElementDataset(src: Source, c: Config): map<string, string> {
    match src
    case Literal(_) => CreatedDataset(c.category, c.message)
    case Surface(ds, _) => ds
  }

  /** `_hasProgress`: `Boolean(options.progress)`. */
  predicate HasProgress(o: Options) {
    Truthy(o.progress)
  }

  predicate PositiveTimeout(o: Options) {
    o.timeout.Finite? && o.timeout.value > 0
  }

  /** The bar (present exactly when progress is on), `_progress` (`null`
      after a stop), the tick closure's `_progress_ratio` and whether
      `_interval` holds a live interval. A `null%` width is not a valid CSS
      length, so writing it leaves the bar's width as it was. */
  datatype Ticker = Ticker(hidden: bool, width: Option<real>, value: Option<real>, offset: int, running: bool)

  /** Everything about one notification that its lifecycle changes. */
  datatype Lifecycle = Lifecycle(
    timers: map<nat, Timer>,   // callbacks pending in window.setTimeout, by handle
    nextTimer: nat,            // the handle the next setTimeout returns
    handle: Option<nat>,       // _c_timeout
    ticker: Ticker,
    visible: bool)             // the element carries the visible class

  /** The offset moves in steps of 16, only a ticker with progress on runs,
      and while it runs its last value is below 100. */
  predicate TickerInv(t: Ticker, o: Options) {
    && t.offset % Period == 0
    && (t.running ==> HasProgress(o) && (t.value.Some? ==> t.value.value < 100.0))
  }

  /** Every pending timer and the stored handle were handed out already, and
      the ticker runs only while a dismiss handle is stored. */
  predicate ValidState(s: Lifecycle, o: Options) {
    && (forall id :: id in s.timers ==> id < s.nextTimer)
    && (s.handle.Some? ==> s.handle.value < s.nextTimer)
    && TickerInv(s.ticker, o)
    && (s.ticker.running ==> s.handle.Some?)
  }

  function PendingDismissals(s: Lifecycle): set<nat> {
    set id | id in s.timers && s.timers[id].Dismiss?
  }

  function PendingRemovals(s: Lifecycle): set<nat> {
    set id | id in s.timers && s.timers[id].Removal?
  }

  /** `_stopProgress`: with progress on, hide the bar, drop the interval and
      set the value to `null`. */
  function ProgressStopped(t: Ticker, o: Options): (r: Ticker)
    ensures !HasProgress(o) ==> r == t
    ensures HasProgress(o) ==> r.hidden && !r.running && r.value.None? && r.width == t.width
    ensures r.offset == t.offset
    ensures TickerInv(t, o) ==> TickerInv(r, o)
  {
    if !HasProgress(o) then t
    else t.(hidden := true, running := false, value := None)
  }

  /** `_startProgress`: with progress on, stop the previous interval, show
      the bar and start a new one whose offset begins at 0. */
  function ProgressStarted(t: Ticker, o: Options): (r: Ticker)
    ensures !HasProgress(o) ==> r == t
    ensures HasProgress(o) ==> r.running && !r.hidden && r.offset == 0 && r.value.None? && r.width == t.width
    ensures TickerInv(t, o) ==> TickerInv(r, o)
  {
    if !HasProgress(o) then t
    else ProgressStopped(t, o).(offset := 0, hidden := false, running := true)
  }

  /** One firing of the interval: show the previous value (a `null` one
      leaves the width alone), compute the next from the offset, advance
      the offset and stop once the value reaches 100. */
  function ProgressTicked(t: Ticker, o: Options): (r: Ticker)
    requires PositiveTimeout(o) && t.running
    ensures r.width == (if t.value.Some? then t.value else t.width)
    ensures r.offset == t.offset + Period
    ensures TickerInv(t, o) ==>
              (r.running <==> t.offset < o.timeout.value) &&
              (r.running ==> r.value == Some(Ratio(t.offset, o.timeout.value))) &&
              (!r.running ==> r.value.None? && r.hidden) &&
              TickerInv(r, o)
  {
    var v := Ratio(t.offset, o.timeout.value);
    var shown := t.(width := if t.value.Some? then t.value else t.width,
                    value := Some(v),
                    offset := t.offset + Period);
    RatioThreshold(t.offset, o.timeout.value);
    if v >= 100.0 then ProgressStopped(shown, o) else shown
  }

  function TickedTimes(t: Ticker, o: Options, k: nat): Ticker
    requires PositiveTimeout(o)
  {
    if k == 0 then t
    else
      var p := TickedTimes(t, o, k - 1);
      if p.running then ProgressTicked(p, o) else p
  }

  /** A just-started ticker after `k` ticks short of its stop: the offset
      is `16 * k`, the value the one computed from the previous offset, and
      the width lags one more tick behind because the first tick writes
      `null%`. */
  lemma {:induction false} TickerRunning(t0: Ticker, o: Options, k: nat)
    requires PositiveTimeout(o) && HasProgress(o)
    requires t0 == ProgressStarted(t0, o)
    requires k < TicksToStop(o.timeout.value)
    ensures var t := TickedTimes(t0, o, k);
      && t.running && !t.hidden
      && t.offset == Period * k
      && t.value == (if k == 0 then None else Some(Ratio(Period * (k - 1), o.timeout.value)))
      && t.width == (if k <= 1 then t0.width else Some(Ratio(Period * (k - 2), o.timeout.value)))
  {
    if k > 0 {
      TickerRunning(t0, o, k - 1);
      var p := TickedTimes(t0, o, k - 1);
      StopsAtTick(o.timeout.value, k);
      RatioThreshold(p.offset, o.timeout.value);
    }
  }

  /** The ticker stops at tick `ceil(timeout / 16) + 1` exactly, hiding the
      bar and leaving the value `null`. */
  lemma {:induction false} TickerStops(t0: Ticker, o: Options, k: nat)
    requires PositiveTimeout(o) && HasProgress(o)
    requires t0 == ProgressStarted(t0, o)
    requires k >= TicksToStop(o.timeout.value)
    ensures var t := TickedTimes(t0, o, k);
      !t.running && t.hidden && t.value.None? && t.offset == Period * TicksToStop(o.timeout.value)
  {
    var n := TicksToStop(o.timeout.value);
    if k == n {
      TickerRunning(t0, o, k - 1);
      var p := TickedTimes(t0, o, k - 1);
      StopsAtTick(o.timeout.value, k);
      RatioThreshold(p.offset, o.timeout.value);
    } else {
      TickerStops(t0, o, k - 1);
    }
  }

  /** `_run`: restart the progress bar and arm a new dismiss timer whose
      handle overwrites `_c_timeout`; a timer armed earlier stays pending. */
  function Ran(s: Lifecycle, o: Options): (r: Lifecycle)
    ensures r.handle == Some(s.nextTimer) && s.nextTimer in r.timers && r.timers[s.nextTimer] == Dismiss(o.timeout)
    ensures r.ticker == ProgressStarted(s.ticker, o) && r.visible == s.visible
    ensures ValidState(s, o) ==>
              && ValidState(r, o)
              && (forall id :: id in s.timers ==> id in r.timers && r.timers[id] == s.timers[id])
              && PendingDismissals(r) == PendingDismissals(s) + {s.nextTimer}
              && s.nextTimer !in PendingDismissals(s)
              && PendingRemovals(r) == PendingRemovals(s)
  {
    s.(timers := s.timers[s.nextTimer := Dismiss(o.timeout)],
       nextTimer := s.nextTimer + 1,
       handle := Some(s.nextTimer),
       ticker := ProgressStarted(s.ticker, o))
  }

  /** `_stop`: with a handle, cancel that one timer, stop the progress bar
      and forget the handle; without one, nothing. */
  function Stopped(s: Lifecycle, o: Options): (r: Lifecycle)
    ensures r.handle.None?
    ensures s.handle.None? ==> r == s
    ensures s.handle.Some? ==> r.timers == s.timers - {s.handle.value} &&
                               r.ticker == ProgressStopped(s.ticker, o)
    ensures ValidState(s, o) ==> ValidState(r, o) && !r.ticker.running
    ensures s.handle.Some? ==> PendingDismissals(r) == PendingDismissals(s) - {s.handle.value}
  {
    if s.handle.None? then s
    else s.(timers := s.timers - {s.handle.value},
            ticker := ProgressStopped(s.ticker, o),
            handle := None)
  }

  /** `_close`: drop the visible class, stop the progress bar and arm the
      removal timer. The handle is not cleared and no timer is cancelled. */
  function Closed(s: Lifecycle, o: Options): (r: Lifecycle)
    ensures r.handle == s.handle && !r.visible
    ensures r.timers == s.timers[s.nextTimer := Removal(o.removeDelay)] && r.nextTimer == s.nextTimer + 1
    ensures r.ticker == ProgressStopped(s.ticker, o)
    ensures ValidState(s, o) ==>
              && ValidState(r, o)
              && (HasProgress(o) ==> !r.ticker.running)
              && PendingDismissals(r) == PendingDismissals(s)
              && PendingRemovals(r) == PendingRemovals(s) + {s.nextTimer}
              && s.nextTimer !in PendingRemovals(s)
  {
    s.(timers := s.timers[s.nextTimer := Removal(o.removeDelay)],
       nextTimer := s.nextTimer + 1,
       ticker := ProgressStopped(s.ticker, o),
       visible := false)
  }

  /** The appear-delay timer fires: the element gets the visible class and
      `_run` starts the countdown. */
  function Appeared(s: Lifecycle, id: nat, o: Options): (r: Lifecycle)
    requires id in s.timers
    ensures r.visible && r.handle == Some(s.nextTimer)
    ensures s.nextTimer in r.timers && r.timers[s.nextTimer] == Dismiss(o.timeout)
    ensures r.ticker == ProgressStarted(s.ticker, o)
    ensures ValidState(s, o) ==>
              && ValidState(r, o) && id !in r.timers
              && PendingDismissals(r) == PendingDismissals(s) - {id} + {s.nextTimer}
  {
    Ran(s.(timers := s.timers - {id}, visible := true), o)
  }

  /** A dismiss timer fires and calls `_close`. */
  function Dismissed(s: Lifecycle, id: nat, o: Options): (r: Lifecycle)
    requires id in s.timers
    ensures r.timers == (s.timers - {id})[s.nextTimer := Removal(o.removeDelay)] && r.nextTimer == s.nextTimer + 1
    ensures r.handle == s.handle && !r.visible && r.ticker == ProgressStopped(s.ticker, o)
    ensures ValidState(s, o) ==> ValidState(r, o) && id !in r.timers
  {
    Closed(s.(timers := s.timers - {id}), o)
  }

  /** The state right after the constructor's field initialisers. */
  function Initial(visible: bool): Lifecycle {
    Lifecycle(map[], 0, None, Ticker(false, None, Some(0.0), 0, false), visible)
  }

  /** `_behavior`: only the appear-delay timer is armed. */
  function Behaved(s: Lifecycle, o: Options): (r: Lifecycle)
    ensures ValidState(s, o) ==> ValidState(r, o)
  {
    s.(timers := s.timers[s.nextTimer := Appear(o.appearDelay)], nextTimer := s.nextTimer + 1)
  }

  /** After construction the only pending timer is the appear delay: no
      dismiss handle, no running bar. */
  function Constructed(o: Options, visible: bool): (r: Lifecycle)
    ensures r.timers == map[0 := Appear(o.appearDelay)] && r.nextTimer == 1
    ensures r.handle.None? && !r.ticker.running && PendingDismissals(r) == {}
    ensures r.visible == visible
    ensures ValidState(r, o)
  {
    var r := Behaved(Initial(visible), o);
    assert PendingDismissals(r) == {} by {
      assert forall id :: id in r.timers ==> id == 0;
    }
    r
  }

  /** `_stop` twice in a row is `_stop` once. */
  lemma StopIdempotent(s: Lifecycle, o: Options)
    ensures Stopped(Stopped(s, o), o) == Stopped(s, o)
  {
  }

  /** Moving the mouse away before the message appeared runs `_run` early;
      the appear timer then runs it again, and the first dismiss timer is
      orphaned: `_stop` can no longer cancel it. */
  lemma EarlyLeaveOrphans(o: Options, visible: bool)
    ensures var left := Ran(Constructed(o, visible), o);
      var shown := Appeared(left, 0, o);
      && PendingDismissals(shown) == {1, 2}
      && shown.handle == Some(2)
      && PendingDismissals(Stopped(shown, o)) == {1}
  {
  }

  /** A click closes the message but leaves the dismiss timer pending; when
      it fires, `_close` runs again and a second removal is armed. */
  lemma DismissAfterClick(s: Lifecycle, o: Options)
    requires ValidState(s, o) && s.handle.Some? && s.handle.value in PendingDismissals(s)
    ensures var h := s.handle.value;
      var clicked := Closed(s, o);
      var dismissed := Dismissed(clicked, h, o);
      h in clicked.timers &&
      PendingRemovals(dismissed) == PendingRemovals(s) + {s.nextTimer, s.nextTimer + 1}
  {
  }

  /** Pausing and resuming restarts the bar from zero. */
  lemma ResumeRestarts(s: Lifecycle, o: Options)
    requires ValidState(s, o) && HasProgress(o)
    ensures var r := Ran(Stopped(s, o), o);
      r.ticker.offset == 0 && r.ticker.value.None? && r.ticker.running
  {
  }

  /** A plain-object second argument gives what omitting the type and
      passing that object as the options gives. */
  lemma PlainObjectIsOptions(src: Source, o: UserOptions, third: Option<UserOptions>)
    ensures Configure(src, PlainObject(o), third) == Configure(src, Omitted, Some(o))
    ensures src.Literal? ==> Configure(src, PlainObject(o), third).category == ErrorType
  {
  }

  /** An element built by the constructor reads back, as a pre-built
      element, with the same message, category (an empty category reads
      back as `'error'`) and options. */
  lemma ComposeRoundTrip(text: string, typeArg: TypeArg, optionsArg: Option<UserOptions>)
    ensures var c := Configure(Literal(text), typeArg, optionsArg);
      var back := Configure(Surface(ElementDataset(Literal(text), c), text), typeArg, optionsArg);
      back.message == c.message &&
      back.category == (if c.category == "" then ErrorType else c.category) &&
      back.options == c.options
  {
  }

  /** Unlike the Angular 5 variant, a `data-progress` attribute changes
      nothing: the options come from the caller alone. */
  lemma DataProgressIgnored(ds: map<string, string>, html: string, flag: string,
                            typeArg: TypeArg, optionsArg: Option<UserOptions>)
    ensures Configure(Surface(ds["progress" := flag], html), typeArg, optionsArg).options.progress
            == Overload(typeArg, optionsArg).1.progress.GetOr(JBool(false))
  {
  }

  /** A `data-timeout` attribute holding the decimal rendering of `n`
      (optionally followed by a unit) makes `n` the dismiss timeout. */
  lemma TimeoutAttribute(ds: map<string, string>, html: string, n: int, unit: string,
                         typeArg: TypeArg, optionsArg: Option<UserOptions>)
    requires unit == [] || !IsDigit(unit[0])
    ensures Configure(Surface(ds["timeout" := Decimal(n) + unit], html), typeArg, optionsArg).options.timeout
            == Finite(n)
  {
    var d := ds["timeout" := Decimal(n) + unit];
    var base := Merge(Overload(typeArg, optionsArg).1);
    assert Configure(Surface(d, html), typeArg, optionsArg).options == TimeoutOverride(d, base);
    TimeoutOverrideDecimal(d, base, n, unit);
  }

  lemma TimeoutOverrideDecimal(ds: map<string, string>, o: Options, n: int, unit: string)
    requires unit == [] || !IsDigit(unit[0])
    requires "timeout" in ds && ds["timeout"] == Decimal(n) + unit
    ensures TimeoutOverride(ds, o).timeout == Finite(n)
  {
    ParseIntDecimal(n, unit);
    assert |Decimal(n)| > 0;
  }

  /** The static members of the class before any custom verb is added. */
  const Builtins: map<string, Verbs.Member> :=
    Verbs.Categories + Verbs.Inherited +
    map["create" := Verbs.Builtin, "addCustomVerbs" := Verbs.Builtin, "DEFAULT_OPTIONS" := Verbs.Builtin]

  /** `_createMessage` up to the timers: build the element and append it to
      the container, or keep the pre-built one, which `_composeMessage`
      already marked with its category. */
  method CreateMessage(content: Content, c: Config, box: Container) returns (e: Element)
    requires box.Valid() && box.attached
    modifies box, content.Objects()
    ensures box.Valid() && box.attached
    ensures box.children == old(box.children) + (if content.Text? then [e] else [])
    ensures content.Prebuilt? ==>
              e == content.element && e.visible == old(content.element.visible) &&
              e.classes == old(content.element.classes) + {"flash-" + c.category}
    ensures content.Text? ==>
              fresh(e) && !e.visible &&
              e.dataset == CreatedDataset(c.category, c.message) && e.innerHtml == c.message &&
              e.classes == {FlashClass, "flash-" + c.category}
  {
    if content.Prebuilt? {
      e := content.element;
      e.classes := e.classes + {"flash-" + c.category};
    } else {
      e := new Element(CreatedDataset(c.category, c.message), c.message,
                       {FlashClass, "flash-" + c.category}, false);
      box.Append(e);
    }
  }

  /** What the constructor does before `_behavior`: the overload, the
      options, `_createContainer`, and `_createMessage` up to the timers. */
  method Prepare(content: Content, typeArg: TypeArg, optionsArg: Option<UserOptions>, found: Container?)
    returns (c: Config, box: Container, e: Element)
    requires found != null ==> found.Valid()
    modifies found, content.Objects()
    ensures c == Configure(content.Source(), typeArg, optionsArg)
    ensures box.Valid() && box.attached
    ensures found != null && old(found.attached) ==> box == found
    ensures found == null || !old(found.attached) ==> fresh(box)
    ensures box.children ==
              (if found != null && old(found.attached) then old(found.children) else []) +
              (if content.Text? then [e] else [])
    ensures content.Prebuilt? ==>
              e == content.element && e.visible == old(content.element.visible) &&
              e.classes == old(content.element.classes) + {"flash-" + c.category}
    ensures content.Text? ==>
              fresh(e) && !e.visible &&
              e.dataset == CreatedDataset(c.category, c.message) && e.innerHtml == c.message &&
              e.classes == {FlashClass, "flash-" + c.category}
  {
    c := Configure(content.Source(), typeArg, optionsArg);
    box := Acquire(found);
    e := CreateMessage(content, c, box);
  }

  /** One notification: its element, the shared container, its resolved
      configuration and its lifecycle fields. */
  class Notification {
    const element: Element
    const container: Container
    const message: string
    const category: string
    var options: Options            // `destroy` writes `remove_delay`
    var timers: map<nat, Timer>
    var nextTimer: nat
    var handle: Option<nat>
    var barHidden: bool
    var barWidth: Option<real>
    var progress: Option<real>      // `_progress`
    var progressRatio: int          // the tick closure's `_progress_ratio`
    var interval: bool

    ghost function State(): Lifecycle
      reads this, element
    {
      Lifecycle(timers, nextTimer, handle,
                Ticker(barHidden, barWidth, progress, progressRatio, interval),
                element.visible)
    }

    ghost predicate Valid()
      reads this, element
    {
      ValidState(State(), options)
    }

    /** `new FlashMessage(message, type, options)` with `found` the result of
        `document.querySelector(options.container)`. */
    constructor (content: Content, typeArg: TypeArg, optionsArg: Option<UserOptions>, found: Container?)
      requires found != null ==> found.Valid()
      modifies found, content.Objects()
      ensures Valid()
      ensures var c := Configure(content.Source(), typeArg, optionsArg);
        message == c.message && category == c.category && options == c.options
      ensures State() == Constructed(options, element.visible)
      ensures container.Valid() && container.attached
      ensures found != null && old(found.attached) ==> container == found
      ensures found == null || !old(found.attached) ==> fresh(container)
      ensures container.children ==
                (if found != null && old(found.attached) then old(found.children) else []) +
                (if content.Text? then [element] else [])
      ensures content.Prebuilt? ==>
                element == content.element && element.visible == old(content.element.visible) &&
                element.classes == old(content.element.classes) + {"flash-" + category}
      ensures content.Text? ==>
                fresh(element) && !element.visible &&
                element.dataset == CreatedDataset(category, message) && element.innerHtml == message &&
                element.classes == {FlashClass, "flash-" + category}
    {
      var c, box, e := Prepare(content, typeArg, optionsArg, found);
      element, container := e, box;
      message, category, options := c.message, c.category, c.options;
      timers, nextTimer, handle := map[], 0, None;
      barHidden, barWidth := false, None;
      progress, progressRatio, interval := Some(0.0), 0, false;
      new;
      assert State() == Initial(element.visible);
      Behavior();
    }

    /** `_behavior`. */
    method Behavior()
      requires Valid()
      modifies this
      ensures Valid() && State() == Behaved(old(State()), options) && options == old(options)
    {
      timers := timers[nextTimer := Appear(options.appearDelay)];
      nextTimer := nextTimer + 1;
    }

    /** `_stopProgress`. */
    method StopProgress()
      modifies this
      ensures options == old(options)
      ensures State() == old(State()).(ticker := ProgressStopped(old(State()).ticker, options))
    {
      if !HasProgress(options) {
        return;
      }
      barHidden := true;
      interval := false;
      progress := None;
    }

    /** `_startProgress`; `_progress_ratio` starts again at 0. */
    method StartProgress()
      modifies this
      ensures options == old(options)
      ensures State() == old(State()).(ticker := ProgressStarted(old(State()).ticker, options))
    {
      if !HasProgress(options) {
        return;
      }
      StopProgress();
      progressRatio := 0;
      barHidden := false;
      interval := true;
    }

    /** One firing of the interval `_startProgress` set. */
    method Tick()
      requires Valid() && interval && PositiveTimeout(options)
      modifies this
      ensures Valid() && options == old(options)
      ensures State() == old(State()).(ticker := ProgressTicked(old(State()).ticker, options))
    {
      ghost var expected := ProgressTicked(State().ticker, options);
      var v := Ratio(progressRatio, options.timeout.value);
      if progress.Some? {
        barWidth := progress;
      }
      progress := Some(v);
      progressRatio := progressRatio + Period;
      if v >= 100.0 {
        StopProgress();
      }
      assert State().ticker == expected;
    }

    /** `_run`. */
    method Run()
      requires Valid()
      modifies this
      ensures Valid() && State() == Ran(old(State()), options) && options == old(options)
    {
      StartProgress();
      timers := timers[nextTimer := Dismiss(options.timeout)];
      handle := Some(nextTimer);
      nextTimer := nextTimer + 1;
    }

    /** `_stop`. */
    method Stop()
      requires Valid()
      modifies this
      ensures Valid() && State() == Stopped(old(State()), options) && options == old(options)
    {
      if handle.Some? {
        timers := timers - {handle.value};
        StopProgress();
        handle := None;
      }
    }

    /** `_close`. */
    method Close()
      requires Valid()
      modifies this, element
      ensures Valid() && State() == Closed(old(State()), options) && options == old(options)
      ensures element.classes == old(element.classes)
    {
      element.visible := false;
      StopProgress();
      timers := timers[nextTimer := Removal(options.removeDelay)];
      nextTimer := nextTimer + 1;
    }

    /** `destroy()`: set `remove_delay` to 0, then `_close`. */
    method Destroy()
      requires Valid()
      modifies this, element
      ensures options == old(options).(removeDelay := 0)
      ensures Valid() && State() == Closed(old(State()), options)
      ensures element.classes == old(element.classes)
    {
      options := options.(removeDelay := 0);
      Close();
    }

    /** The appear-delay timer `id` fires. */
    method FireAppear(id: nat)
      requires Valid() && id in timers && timers[id].Appear?
      modifies this, element
      ensures Valid() && State() == Appeared(old(State()), id, options) && options == old(options)
      ensures element.classes == old(element.classes)
    {
      timers := timers - {id};
      element.visible := true;
      Run();
    }

    /** The dismiss timer `id` fires. */
    method FireDismiss(id: nat)
      requires Valid() && id in timers && timers[id].Dismiss?
      modifies this, element
      ensures Valid() && State() == Dismissed(old(State()), id, options) && options == old(options)
      ensures element.classes == old(element.classes)
    {
      timers := timers - {id};
      Close();
    }

    /** The removal timer `id` fires: `removeChild`, then `_clear`. When the
        element is no longer a child `removeChild` throws `NotFoundError`
        and `_clear` is not reached; `removed` is false then. */
    method FireRemoval(id: nat) returns (removed: bool)
      requires Valid() && id in timers && timers[id].Removal?
      requires container.Valid()
      modifies this, container
      ensures Valid() && State() == old(State()).(timers := old(timers) - {id}) && options == old(options)
      ensures container.Valid()
      ensures removed == (element in old(container.children))
      ensures container.children == if removed then RemoveFirst(old(container.children), element)
                                    else old(container.children)
      ensures container.attached == if removed then container.children != [] else old(container.attached)
    {
      timers := timers - {id};
      removed := container.RemoveChild(element);
      if removed {
        container.ClearIfEmpty();
      }
    }

    /** `mouseover`: the handlers are bound unconditionally. */
    method MouseOver()
      requires Valid()
      modifies this
      ensures Valid() && State() == Stopped(old(State()), options) && options == old(options)
    {
      Stop();
    }

    /** `mouseleave`. */
    method MouseLeave()
      requires Valid()
      modifies this
      ensures Valid() && State() == Ran(old(State()), options) && options == old(options)
    {
      Run();
    }

    /** `click`. */
    method Click()
      requires Valid()
      modifies this, element
      ensures Valid() && State() == Closed(old(State()), options) && options == old(options)
      ensures element.classes == old(element.classes)
    {
      Close();
    }
  }
}
