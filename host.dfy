/** The browser host as explicit state: message elements, the shared
    container they are children of, and the callbacks a notification has
    handed to `window.setTimeout`. */
module Host {
  import opened Js

  /** A callback pending in `window.setTimeout`, with the delay it was armed with. */
  datatype Timer =
    | Appear(delay: int)     // adds the visible class (and, in one variant, runs the countdown)
    | Dismiss(timeout: Num)  // the auto-dismiss countdown, armed with `options.timeout`
    | Removal(delay: int)    // detaches the element after `remove_delay`

  /** What the first constructor argument supplies: literal text or markup,
      or an element already built in the page. */
  datatype Content = Text(text: string) | Prebuilt(element: Element) {
    /** The data the constructor reads from the argument. */
    function Source(): Source {
      match this
      case Text(t) => Literal(t)
      case Prebuilt(e) => Surface(e.dataset, e.innerHtml)
    }

    /** The objects the constructor may write to. */
    function Objects(): set<object> {
      match this
      case Text(_) => {}
      case Prebuilt(e) => {e}
    }
  }

  /** The values a message is built from: literal text, or the data
      attributes and markup of a pre-built element. */
  datatype Source = Literal(text: string) | Surface(dataset: map<string, string>, innerHtml: string)

  /** `element.dataset[key] || fallback`: a missing or empty attribute falls back. */
  function DataOr(dataset: map<string, string>, key: string, fallback: string): string {
    if key in dataset && dataset[key] != "" then dataset[key] else fallback
  }

  /** The data attributes `_createMessage` writes on an element it builds. */
  function CreatedDataset(category: string, message: string): map<string, string> {
    map["type" := category, "message" := message]
  }

  /** A message element: the data attributes and markup it was built with,
      its class list and whether it carries the visible class. */
  class Element {
    const dataset: map<string, string>
    const innerHtml: string
    var classes: set<string>
    var visible: bool

    constructor (dataset: map<string, string>, innerHtml: string, classes: set<string>, visible: bool)
      ensures this.dataset == dataset && this.innerHtml == innerHtml
      ensures this.classes == classes && this.visible == visible
    {
      this.dataset := dataset;
      this.innerHtml := innerHtml;
      this.classes := classes;
      this.visible := visible;
    }
  }

  predicate Distinct<T(==)>(s: seq<T>) {
    forall i, j :: 0 <= i < j < |s| ==> s[i] != s[j]
  }

  /** `s` without its first occurrence of `e`. */
  function RemoveFirst<T(==)>(s: seq<T>, e: T): (r: seq<T>)
    ensures e in s ==> |r| == |s| - 1
    ensures e !in s ==> r == s
    ensures multiset(r) == multiset(s) - multiset{e}
    ensures forall x :: x in r ==> x in s
  {
    if s == [] then []
    else
      assert s == [s[0]] + s[1..];
      if s[0] == e then s[1..] else [s[0]] + RemoveFirst(s[1..], e)
  }

  lemma {:induction false} RemoveFirstAt<T>(s: seq<T>, e: T, i: nat)
    requires i < |s| && s[i] == e && e !in s[..i]
    ensures RemoveFirst(s, e) == s[..i] + s[i + 1..]
  {
    if i > 0 {
      var t := s[1..];
      assert t[..i - 1] == s[1..i];
      assert s[..i] == [s[0]] + t[..i - 1];
      RemoveFirstAt(t, e, i - 1);
      assert t[i..] == s[i + 1..];
    }
  }

  /** The tail of a list without repetitions has none either and does not
      hold the head. */
  lemma DistinctTail<T>(s: seq<T>)
    requires s != [] && Distinct(s)
    ensures Distinct(s[1..]) && s[0] !in s[1..]
  {
    forall i, j | 0 <= i < j < |s[1..]| ensures s[1..][i] != s[1..][j] {
      assert s[1..][i] == s[i + 1] && s[1..][j] == s[j + 1];
    }
  }

  /** Removing an element from a list without repetitions leaves a list
      without repetitions that no longer holds it. */
  lemma {:induction false} RemoveFirstDistinct<T>(s: seq<T>, e: T)
    requires Distinct(s)
    ensures Distinct(RemoveFirst(s, e)) && e !in RemoveFirst(s, e)
  {
    if s != [] {
      DistinctTail(s);
      if s[0] != e {
        RemoveFirstDistinct(s[1..], e);
        var t := RemoveFirst(s[1..], e);
        assert s[0] !in t;
        assert RemoveFirst(s, e) == [s[0]] + t;
      }
    }
  }

  /** The shared `.flash-container` element: its children in document order
      and whether it is attached to the document body. */
  class Container {
    var children: seq<Element>
    var attached: bool

    /** A detached container is never left holding messages, and a node is a
        child at most once. */
    ghost predicate Valid()
      reads this
    {
      (!attached ==> children == []) && Distinct(children)
    }

    /** `document.createElement('div')` inserted at the top of the body. */
    constructor ()
      ensures Valid() && attached && children == []
    {
      children := [];
      attached := true;
    }

    /** `appendChild` of a node that is not yet a child. */
    method Append(e: Element)
      requires Valid() && attached && e !in children
      modifies this
      ensures Valid() && attached
      ensures children == old(children) + [e]
    {
      children := children + [e];
    }

    /** `removeChild(e)`; `found` is false exactly when the DOM would throw
        `NotFoundError`, and then nothing changes. */
    method RemoveChild(e: Element) returns (found: bool)
      requires Valid()
      modifies this
      ensures Valid() && attached == old(attached)
      ensures found == (e in old(children))
      ensures children == if found then RemoveFirst(old(children), e) else old(children)
      ensures e !in children
    {
      var i := 0;
      while i < |children| && children[i] != e
        invariant 0 <= i <= |children|
        invariant e !in children[..i]
      {
        i := i + 1;
      }
      found := i < |children|;
      if found {
        RemoveFirstAt(children, e, i);
        RemoveFirstDistinct(children, e);
        children := children[..i] + children[i + 1..];
      } else {
        assert children[..i] == children;
      }
    }

    /** `_clear`: the container leaves the document once it has no children.
        The source reads `parentNode`, so it may only run on an attached
        container. */
    method ClearIfEmpty()
      requires Valid() && attached
      modifies this
      ensures Valid() && children == old(children)
      ensures attached == (children != [])
    {
      if children == [] {
        attached := false;
      }
    }
  }

  /** `_createContainer`: reuse the container the selector found when it is
      still in the document, otherwise create a fresh attached one. */
  method Acquire(found: Container?) returns (c: Container)
    requires found != null ==> found.Valid()
    ensures c.Valid() && c.attached
    ensures found != null && found.attached ==> c == found
    ensures found == null || !found.attached ==> fresh(c) && c.children == []
  {
    if found == null || !found.attached {
      c := new Container();
    } else {
      c := found;
    }
  }
}
