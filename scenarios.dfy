/** Whole lifecycles of the two variants driven event by event, as a page
    would drive them. */
module Scenarios {
  import opened Js
  import opened Host
  import Progress
  import Verbs
  import FlashTs
  import FlashJs

  /** Two Angular 5 messages share one container: the second constructor
      finds and reuses the container the first one created, the container
      stays in the document after the first message fades out, and leaves
      it after the last one does. */
  method SharedContainer() returns (same: bool, left: nat, attachedBetween: bool, attachedAtEnd: bool)
    ensures same && left == 1 && attachedBetween && !attachedAtEnd
  {
    var first, second := TwoMessages();
    same := first.container == second.container;
    var box := first.container;
    first.Click();
    second.Click();
    var failures := first.TransitionEnd();
    assert box.children == [second.element];
    left := |box.children|;
    attachedBetween := box.attached;
    failures := second.TransitionEnd();
    assert box.children == [];
    attachedAtEnd := box.attached;
  }

  /** Two interactive Angular 5 messages built one after the other on a
      page without a container. */
  method TwoMessages() returns (first: FlashTs.Notification, second: FlashTs.Notification)
    ensures fresh(first) && fresh(second) && fresh(first.container)
    ensures fresh(first.element) && fresh(second.element) && first.element != second.element
    ensures first.Valid() && second.Valid() && first.listening && second.listening
    ensures first.transitionListeners == 0 && second.transitionListeners == 0
    ensures first.container == second.container && first.container.Valid()
    ensures first.container.children == [first.element, second.element]
  {
    first := new FlashTs.Notification(Text("Saved"), FlashTs.TypeName("success"), None, null);
    second := new FlashTs.Notification(Text("Sent"), FlashTs.Omitted, None, first.container);
  }

  /** Angular 5: a click does not cancel the dismiss timer. When it fires
      before the fade-out ends, the element carries two `transitionend`
      listeners and the second one's `removeChild` throws. */
  method ClickThenStaleDismiss() returns (failures: nat, attached: bool)
    ensures failures == 1 && !attached
  {
    var n := ClickedBeforeFadeOut();
    failures := n.TransitionEnd();
    attached := n.container.attached;
  }

  /** An Angular 5 message clicked and then reached by its dismiss timer
      while the fade-out still runs: two `transitionend` listeners wait on
      the element, which is still the container's only child. */
  method ClickedBeforeFadeOut() returns (n: FlashTs.Notification)
    ensures fresh(n.container) && n.container.Valid()
    ensures n.container.children == [n.element] && n.transitionListeners == 2
  {
    n := new FlashTs.Notification(Text("Saved"), FlashTs.TypeName("success"), None, null);
    n.Click();
    n.FireDismiss(0);
  }

  /** Angular 5 with a pre-built element that is not inside the container:
      the constructor creates an empty container, and at the end of the
      fade-out `removeChild` throws, so the empty container stays in the
      document. */
  method PrebuiltOutsideContainer(e: Element) returns (failures: nat, attached: bool, children: nat)
    modifies e
    ensures failures == 1 && attached && children == 0
  {
    var n := new FlashTs.Notification(Prebuilt(e), FlashTs.Omitted, None, null);
    n.Click();
    failures := n.TransitionEnd();
    attached := n.container.attached;
    children := |n.container.children|;
  }

  /** Angular 5 with `interactive: 1`: the handlers are not bound, so a
      click leaves the message visible once it has appeared. */
  method NonInteractiveIgnoresClick() returns (visible: bool, handle: Option<nat>)
    ensures visible && handle == Some(0)
  {
    var opts := FlashTs.NoOptions.(interactive := Some(JNum(1)));
    var n := new FlashTs.Notification(Text("Saved"), FlashTs.PlainObject(opts), None, null);
    n.FireAppear(1);
    n.Click();
    n.MouseOver();
    visible := n.element.visible;
    handle := n.handle;
  }

  /** The plain variant: leaving the message with the mouse before it
      appeared arms a dismiss timer early, the appear delay arms another,
      and `mouseover` cancels only the second. */
  method EarlyLeave() returns (armed: set<nat>, afterHover: set<nat>)
    ensures armed == {1, 2} && afterHover == {1}
  {
    var n := new FlashJs.Notification(Text("Saved"), FlashJs.Omitted, None, null);
    n.MouseLeave();
    n.FireAppear(0);
    armed := set id | id in n.timers && n.timers[id].Dismiss?;
    n.MouseOver();
    afterHover := set id | id in n.timers && n.timers[id].Dismiss?;
  }

  /** The plain variant: no dismiss timer is pending before the appear
      delay elapses, and the element is not yet visible. */
  method NothingBeforeAppear() returns (dismissals: set<nat>, visible: bool)
    ensures dismissals == {} && !visible
  {
    var n := new FlashJs.Notification(Text("Saved"), FlashJs.TypeName("info"), None, null);
    n.MouseOver();
    dismissals := set id | id in n.timers && n.timers[id].Dismiss?;
    visible := n.element.visible;
  }

  /** The plain variant: `destroy` arms a removal with delay 0, which
      detaches the element and then the emptied container. */
  method DestroyNow() returns (armed: Timer, removed: bool, attached: bool)
    ensures armed == Removal(0) && removed && !attached
  {
    var n := new FlashJs.Notification(Text("Saved"), FlashJs.Omitted, None, null);
    n.FireAppear(0);
    n.Destroy();
    armed := n.timers[2];
    removed := n.FireRemoval(2);
    attached := n.container.attached;
  }

  /** The plain variant: a click then the stale dismiss timer arm two
      removals; the second finds the element gone and leaves the emptied
      container detached. */
  method DoubleRemoval() returns (first: bool, second: bool, attached: bool)
    ensures first && !second && !attached
  {
    var n := ClickedThenDismissed();
    first := n.FireRemoval(2);
    assert n.container.children == [] && !n.container.attached;
    second := n.FireRemoval(3);
    attached := n.container.attached;
  }

  /** A plain-variant message that appeared, was clicked, and then had its
      dismiss timer fire: two removals are pending. */
  method ClickedThenDismissed() returns (n: FlashJs.Notification)
    ensures fresh(n) && fresh(n.container) && n.Valid() && n.container.Valid()
    ensures n.container.children == [n.element]
    ensures 2 in n.timers && n.timers[2].Removal? && 3 in n.timers && n.timers[3].Removal?
  {
    n := new FlashJs.Notification(Text("Saved"), FlashJs.Omitted, None, null);
    n.FireAppear(0);
    assert n.timers == map[1 := Dismiss(n.options.timeout)];
    n.Click();
    assert n.timers == map[1 := Dismiss(n.options.timeout), 2 := Removal(n.options.removeDelay)];
    n.FireDismiss(1);
  }

  /** The page reads `data-timeout="500"` as a 500 ms countdown. */
  lemma TimeoutFromMarkup()
    ensures FlashJs.Configure(Surface(map["timeout" := "500"], "Hi"), FlashJs.Omitted, None).options.timeout
            == Finite(500)
    ensures FlashTs.Configure(Surface(map["timeout" := "500"], "Hi"), FlashTs.Omitted, None).options.timeout
            == Finite(500)
  {
    assert Decimal(500) + "" == "500";
    FlashJs.TimeoutAttribute(map[], "Hi", 500, "", FlashJs.Omitted, None);
    FlashTs.TimeoutAttribute(map[], "Hi", 500, "", FlashTs.Omitted, None);
    assert map[]["timeout" := "500"] == map["timeout" := "500"];
  }

  /** A 160 ms bar is still running after 10 ticks and stops at the 11th. */
  lemma ShortBar(t0: FlashTs.Ticker, o: FlashTs.Options)
    requires o.timeout == Finite(160) && FlashTs.HasProgress(o)
    requires t0 == FlashTs.ProgressStarted(t0, o)
    ensures FlashTs.TickedTimes(t0, o, 10).running
    ensures !FlashTs.TickedTimes(t0, o, 11).running
  {
    assert Progress.TicksToStop(160) == 11;
    FlashTs.TickerRunning(t0, o, 10);
    FlashTs.TickerStops(t0, o, 11);
  }

  /** Registering `danger` adds a factory; `success` and the static
      `create` keep their members. */
  method RegisterVerbs() returns (danger: Verbs.Member, success: Verbs.Member, create: Verbs.Member)
    ensures danger == Verbs.Verb("danger") && success == Verbs.Verb("success") && create == Verbs.Builtin
  {
    BuiltinFacts();
    danger, success, create := RegisterOver(FlashTs.Builtins);
  }

  lemma BuiltinFacts()
    ensures "danger" !in FlashTs.Builtins
    ensures "success" in FlashTs.Builtins && FlashTs.Builtins["success"] == Verbs.Verb("success")
    ensures "create" in FlashTs.Builtins && FlashTs.Builtins["create"] == Verbs.Builtin
  {
    InheritedFacts();
  }

  /** Registering custom verbs never replaces a name either class inherits
      from `Function.prototype` or `Object.prototype`, whatever the names. */
  lemma InheritedNeverReplaced(verbs: seq<string>, name: string)
    requires name in Verbs.Inherited
    ensures Verbs.WithVerbs(FlashTs.Builtins, verbs)[name] == Verbs.Builtin
    ensures Verbs.WithVerbs(FlashJs.Builtins, verbs)[name] == Verbs.Builtin
  {
    assert FlashTs.Builtins[name] == Verbs.Builtin;
    assert FlashJs.Builtins[name] == Verbs.Builtin;
    Verbs.WithVerbsKeepsExisting(FlashTs.Builtins, verbs, name);
    Verbs.WithVerbsKeepsExisting(FlashJs.Builtins, verbs, name);
  }

  lemma InheritedFacts()
    ensures "danger" !in Verbs.Inherited && "success" !in Verbs.Inherited && "create" !in Verbs.Inherited
  {
  }

  method RegisterOver(builtins: map<string, Verbs.Member>) returns (danger: Verbs.Member, success: Verbs.Member, create: Verbs.Member)
    requires "danger" !in builtins
    requires "success" in builtins && "create" in builtins
    ensures danger == Verbs.Verb("danger") && success == builtins["success"] && create == builtins["create"]
  {
    var verbs := ["success", "danger", "create", "danger"];
    var registry := new Verbs.Registry(builtins);
    registry.AddCustomVerbs(verbs);
    assert verbs[1] == "danger";
    Verbs.WithVerbsKeepsExisting(builtins, verbs, "danger");
    Verbs.WithVerbsKeepsExisting(builtins, verbs, "success");
    Verbs.WithVerbsKeepsExisting(builtins, verbs, "create");
    danger := registry.statics["danger"];
    success := registry.statics["success"];
    create := registry.statics["create"];
  }
}
