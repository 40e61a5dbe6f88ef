/** The process-wide table of static members of the `FlashMessage` class,
    which `addCustomVerbs` extends with one factory per new category name.
    A name is taken when the class already has a truthy property of that
    name, whether a built-in factory, another static member or one inherited
    from `Function.prototype` and `Object.prototype`. */
module Verbs {

  /** A static member: a factory that builds a message of a fixed category,
      or any other truthy property. */
  datatype Member = Verb(category: string) | Builtin

  /** Properties the class object has of its own (`name`, `length`, which
      is 1 for both constructors, `prototype`) or inherits from
      `Function.prototype` and `Object.prototype`; all of them are truthy. */
  const Inherited: map<string, Member> :=
    map["apply" := Builtin, "bind" := Builtin, "call" := Builtin, "toString" := Builtin,
        "constructor" := Builtin, "hasOwnProperty" := Builtin, "isPrototypeOf" := Builtin,
        "propertyIsEnumerable" := Builtin, "toLocaleString" := Builtin, "valueOf" := Builtin,
        "name" := Builtin, "length" := Builtin, "prototype" := Builtin,
        "__proto__" := Builtin, "__defineGetter__" := Builtin, "__defineSetter__" := Builtin,
        "__lookupGetter__" := Builtin, "__lookupSetter__" := Builtin]

  /** The factories `success`, `warning`, `error` and `info`. */
  const Categories: map<string, Member> :=
    map["success" := Verb("success"), "warning" := Verb("warning"),
        "error" := Verb("error"), "info" := Verb("info")]

  /** One step of `addCustomVerbs`: a factory is added only under a name not taken. */
  function Register(statics: map<string, Member>, verb: string): map<string, Member> {
    if verb in statics then statics else statics[verb := Verb(verb)]
  }

  /** The table after registering `verbs` in order: every name already taken
      keeps its member and every new name gets a factory of its own category. */
  function WithVerbs(statics: map<string, Member>, verbs: seq<string>): (r: map<string, Member>)
    ensures r == statics + Added(statics, verbs)
    decreases |verbs|
  {
    if verbs == [] then statics
    else
      var init := verbs[..|verbs| - 1];
      var prev := WithVerbs(statics, init);
      var v := verbs[|verbs| - 1];
      assert verbs == init + [v];
      RegisterStep(statics, init, v);
      Register(prev, v)
  }

  /** The factories registering `verbs` adds over `statics`. */
  function Added(statics: map<string, Member>, verbs: seq<string>): map<string, Member> {
    map v | v in verbs && v !in statics :: Verb(v)
  }

  lemma RegisterStep(statics: map<string, Member>, init: seq<string>, v: string)
    ensures Register(statics + Added(statics, init), v) == statics + Added(statics, init + [v])
  {
    var lhs := Register(statics + Added(statics, init), v);
    var rhs := statics + Added(statics, init + [v]);
    assert forall w :: w in init + [v] <==> w in init || w == v;
    assert lhs.Keys == rhs.Keys;
    forall w | w in lhs.Keys
      ensures lhs[w] == rhs[w]
    {
    }
  }

  /** Registering the same names again changes nothing. */
  lemma {:induction false} WithVerbsIdempotent(statics: map<string, Member>, verbs: seq<string>)
    ensures WithVerbs(WithVerbs(statics, verbs), verbs) == WithVerbs(statics, verbs)
  {
    var once := WithVerbs(statics, verbs);
    var twice := WithVerbs(once, verbs);
    assert Added(once, verbs) == map[];
    assert twice == once + map[];
  }

  /** A name that is already a member is never overwritten, and a new name
      builds messages of its own category. */
  lemma WithVerbsKeepsExisting(statics: map<string, Member>, verbs: seq<string>, name: string)
    ensures name in statics ==> WithVerbs(statics, verbs)[name] == statics[name]
    ensures name in verbs && name !in statics ==> WithVerbs(statics, verbs)[name] == Verb(name)
    ensures name !in verbs && name !in statics ==> name !in WithVerbs(statics, verbs)
  {
  }

  /** The static side of one `FlashMessage` class. */
  class Registry {
    var statics: map<string, Member>

    constructor (builtins: map<string, Member>)
      ensures statics == builtins
    {
      statics := builtins;
    }

    /** `addCustomVerbs(...verbs)`. */
    method AddCustomVerbs(verbs: seq<string>)
      modifies this
      ensures statics == WithVerbs(old(statics), verbs)
    {
      if |verbs| == 0 {
        return;
      }
      var i := 0;
      while i < |verbs|
        invariant 0 <= i <= |verbs|
        invariant statics == WithVerbs(old(statics), verbs[..i])
      {
        var verb := verbs[i];
        assert verbs[..i + 1][..i] == verbs[..i];
        if verb !in statics {
          statics := statics[verb := Verb(verb)];
        }
        i := i + 1;
      }
      assert verbs[..i] == verbs;
    }
  }
}
