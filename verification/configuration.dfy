/** The global-variable part of a linter configuration: which groups of
    predefined globals are enabled (browser, ECMAScript, Node.js), which
    globals the user declared explicitly, and which names the user asked to
    remove. `Globals` computes the effective set of declared globals from
    that state.

    The set of declared globals is a map from name to the two attributes a
    global can have; adding a name gives it the default attributes, both
    true. */
module Configuration {
  import opened Wrappers

  datatype GlobalAttrs = GlobalAttrs(isShadowable: bool, isWritable: bool)

  const DefaultAttrs := GlobalAttrs(true, true)
  const NonWritableAttrs := GlobalAttrs(true, false)
  const NonShadowableAttrs := GlobalAttrs(false, true)

  type GlobalSet = map<string, GlobalAttrs>

  /** The attributes `name` is declared with in `g`, if it is declared. */
  function AttrsOf(g: GlobalSet, name: string): Option<GlobalAttrs>
  {
    if name in g then Some(g[name]) else None
  }

  datatype Config = Config(
    globals: GlobalSet,
    globalsToRemove: seq<string>,
    addBrowser: bool,
    addEcmascript: bool,
    addNodeJs: bool)

  /** The two configurations enable the same groups. */
  predicate SameGroups(a: Config, b: Config)
  {
    a.addBrowser == b.addBrowser && a.addEcmascript == b.addEcmascript && a.addNodeJs == b.addNodeJs
  }

  /** ECMA-262 sections 18.1 to 18.4, the properties of the global object,
      except the three value properties that cannot be written. */
  const EcmascriptWritableGlobals: seq<string> := [
    // 18.1 Value Properties of the Global Object
    "globalThis",
    // 18.2 Function Properties of the Global Object
    "decodeURI", "decodeURIComponent", "encodeURI", "encodeURIComponent", "eval",
    "isFinite", "isNaN", "parseFloat", "parseInt",
    // 18.3 Constructor Properties of the Global Object
    "Array", "ArrayBuffer", "BigInt", "BigInt64Array", "BigUint64Array", "Boolean",
    "DataView", "Date", "Error", "EvalError", "Float32Array", "Float64Array",
    "Function", "Int16Array", "Int32Array", "Int8Array", "Map", "Number", "Object",
    "Promise", "Proxy", "RangeError", "ReferenceError", "RegExp", "Set",
    "SharedArrayBuffer", "String", "Symbol", "SyntaxError", "TypeError", "URIError",
    "Uint16Array", "Uint32Array", "Uint8Array", "Uint8ClampedArray", "WeakMap", "WeakSet",
    // 18.4 Other Properties of the Global Object
    "Atomics", "JSON", "Math", "Reflect"
  ]

  /** ECMA-262 section 18.1 value properties that are not writable. */
  const EcmascriptNonWritableGlobals: seq<string> := ["Infinity", "NaN", "undefined"]

  const NodeJsWritableGlobals: seq<string> := [
    "Buffer", "GLOBAL", "Intl", "TextDecoder", "TextEncoder", "URL",
    "URLSearchParams", "WebAssembly", "clearImmediate", "clearInterval", "clearTimeout", "console",
    "escape", "global", "process", "queueMicrotask", "root", "setImmediate",
    "setInterval", "setTimeout", "unescape"
  ]

  /** The variables Node.js gives every CommonJS module; they may not be
      shadowed. */
  const NodeJsModuleVariables: seq<string> := ["__dirname", "__filename", "exports", "module", "require"]

  /** Disables all three groups and changes nothing else. */
  function ResetGlobalGroups(c: Config): (r: Config)
    ensures !r.addBrowser && !r.addEcmascript && !r.addNodeJs
    ensures r.globals == c.globals && r.globalsToRemove == c.globalsToRemove
  {
    c.(addBrowser := false, addEcmascript := false, addNodeJs := false)
  }

  /** Enables the group called `groupName`. The result says whether the
      name is one of the three known groups; an unknown name changes
      nothing. A known name enables its own group and leaves the other
      groups and the globals as they were. */
  function AddGlobalGroup(c: Config, groupName: string): (r: (bool, Config))
    ensures r.0 <==> groupName in {"browser", "ecmascript", "node.js"}
    ensures !r.0 ==> r.1 == c
    ensures r.1.globals == c.globals && r.1.globalsToRemove == c.globalsToRemove
    ensures r.1.addBrowser == (c.addBrowser || groupName == "browser")
    ensures r.1.addEcmascript == (c.addEcmascript || groupName == "ecmascript")
    ensures r.1.addNodeJs == (c.addNodeJs || groupName == "node.js")
  {
    if groupName == "browser" then (true, c.(addBrowser := true))
    else if groupName == "ecmascript" then (true, c.(addEcmascript := true))
    else if groupName == "node.js" then (true, c.(addNodeJs := true))
    else (false, c)
  }

  /** Declares `name` with the default attributes; no other name and no
      group changes. */
  function AddGlobalVariable(c: Config, name: string): (r: Config)
    ensures AttrsOf(r.globals, name) == Some(DefaultAttrs)
    ensures forall n :: n != name ==> AttrsOf(r.globals, n) == AttrsOf(c.globals, n)
    ensures r.globalsToRemove == c.globalsToRemove && SameGroups(r, c)
  {
    c.(globals := c.globals[name := DefaultAttrs])
  }

  /** Appends `name` to the removal list: afterwards exactly the names that
      were on it, and `name`, are on it, the earlier entries keep their
      order, and the new last entry is `name`. */
  function RemoveGlobalVariable(c: Config, name: string): (r: Config)
    ensures forall n :: n in r.globalsToRemove <==> n in c.globalsToRemove || n == name
    ensures |r.globalsToRemove| == |c.globalsToRemove| + 1
    ensures r.globalsToRemove[..|c.globalsToRemove|] == c.globalsToRemove
    ensures r.globalsToRemove[|c.globalsToRemove|] == name
    ensures r.globals == c.globals && SameGroups(r, c)
  {
    c.(globalsToRemove := c.globalsToRemove + [name])
  }

  /** A linear search of the removal list. */
  method ShouldRemoveGlobalVariable(c: Config, name: string) returns (r: bool)
    ensures r <==> name in c.globalsToRemove
  {
    var i := 0;
    while i < |c.globalsToRemove|
      invariant 0 <= i <= |c.globalsToRemove|
      invariant name !in c.globalsToRemove[..i]
    {
      if c.globalsToRemove[i] == name {
        return true;
      }
      i := i + 1;
    }
    assert c.globalsToRemove[..i] == c.globalsToRemove;
    return false;
  }

  /** Reset the configuration: the Node.js and ECMAScript groups are enabled,
      no global is declared and none is to be removed. The browser flag is
      left as it was. */
  function Reset(c: Config): (r: Config)
    ensures r.addEcmascript && r.addNodeJs && r.addBrowser == c.addBrowser
    ensures forall n :: AttrsOf(r.globals, n).None?
    ensures |r.globalsToRemove| == 0
  {
    Config(map[], [], c.addBrowser, true, true)
  }

  /** What `Globals` declares `name` as. Groups are applied in the order
      browser, ECMAScript, Node.js, and within a group the plain globals
      before the special ones, so a later group's attributes win. A name on
      the removal list is never added by a group. */
  ghost function EffectiveGlobal(c: Config, browserNames: seq<string>, name: string): Option<GlobalAttrs>
  {
    if name in c.globalsToRemove then AttrsOf(c.globals, name)
    else if c.addNodeJs && name in NodeJsModuleVariables then Some(NonShadowableAttrs)
    else if c.addNodeJs && name in NodeJsWritableGlobals then Some(DefaultAttrs)
    else if c.addEcmascript && name in EcmascriptNonWritableGlobals then Some(NonWritableAttrs)
    else if c.addEcmascript && name in EcmascriptWritableGlobals then Some(DefaultAttrs)
    else if c.addBrowser && name in browserNames then Some(DefaultAttrs)
    else AttrsOf(c.globals, name)
  }

  /** Declares every name of `names` that is not on the removal list, with
      `attrs`, on top of `g`. */
  method AddGroupVariables(c: Config, g: GlobalSet, names: seq<string>, attrs: GlobalAttrs)
    returns (r: GlobalSet)
    ensures forall n :: AttrsOf(r, n)
                     == if n in names && n !in c.globalsToRemove then Some(attrs) else AttrsOf(g, n)
  {
    r := g;
    var i := 0;
    while i < |names|
      invariant 0 <= i <= |names|
      invariant forall n :: AttrsOf(r, n)
                         == if n in names[..i] && n !in c.globalsToRemove then Some(attrs) else AttrsOf(g, n)
    {
      var remove := ShouldRemoveGlobalVariable(c, names[i]);
      if !remove {
        r := r[names[i] := attrs];
      }
      assert names[..i + 1] == names[..i] + [names[i]];
      i := i + 1;
    }
    assert names[..i] == names;
  }

  /** The effective set of declared globals: the explicitly declared ones
      plus every enabled group's names that are not to be removed, with the
      attributes `EffectiveGlobal` gives them. Only the declared set
      changes. The browser group's names are data the model takes as a
      parameter. */
  method Globals(c: Config, browserNames: seq<string>) returns (r: Config)
    ensures forall n :: AttrsOf(r.globals, n) == EffectiveGlobal(c, browserNames, n)
    ensures r.globalsToRemove == c.globalsToRemove && SameGroups(r, c)
  {
    var g := c.globals;
    if c.addBrowser {
      g := AddGroupVariables(c, g, browserNames, DefaultAttrs);
    }
    if c.addEcmascript {
      g := AddGroupVariables(c, g, EcmascriptWritableGlobals, DefaultAttrs);
      g := AddGroupVariables(c, g, EcmascriptNonWritableGlobals, NonWritableAttrs);
    }
    if c.addNodeJs {
      g := AddGroupVariables(c, g, NodeJsWritableGlobals, DefaultAttrs);
      g := AddGroupVariables(c, g, NodeJsModuleVariables, NonShadowableAttrs);
    }
    r := c.(globals := g);
  }

  /** With the ECMAScript group enabled, `Infinity`, `NaN` and `undefined`
      are declared non-writable unless they are on the removal list. */
  lemma EcmascriptValuePropertiesAreNonWritable(c: Config, browserNames: seq<string>, name: string)
    requires c.addEcmascript
    requires name in EcmascriptNonWritableGlobals
    requires name !in c.globalsToRemove
    ensures EffectiveGlobal(c, browserNames, name) == Some(NonWritableAttrs)
  {
    assert name !in NodeJsModuleVariables && name !in NodeJsWritableGlobals;
  }

  /** With the Node.js group enabled, the module variables are declared not
      shadowable unless they are on the removal list. */
  lemma NodeJsModuleVariablesAreNotShadowable(c: Config, browserNames: seq<string>, name: string)
    requires c.addNodeJs
    requires name in NodeJsModuleVariables
    requires name !in c.globalsToRemove
    ensures EffectiveGlobal(c, browserNames, name) == Some(NonShadowableAttrs)
  {
  }

  /** A name on the removal list keeps whatever explicit declaration it has:
      no group adds it. */
  lemma RemovedNamesAreNotAdded(c: Config, browserNames: seq<string>, name: string)
    requires name in c.globalsToRemove
    ensures EffectiveGlobal(c, browserNames, name) == AttrsOf(c.globals, name)
  {
  }

  /** With all groups reset, the effective set is exactly the explicitly
      declared globals. */
  lemma ResetGlobalGroupsAddsNothing(c: Config, browserNames: seq<string>, name: string)
    ensures EffectiveGlobal(ResetGlobalGroups(c), browserNames, name) == AttrsOf(c.globals, name)
  {
  }

  /** Computing the globals again on the already computed set changes
      nothing; the program recomputes the set on every call. */
  lemma GlobalsIdempotent(c: Config, browserNames: seq<string>, computed: Config)
    requires forall n :: AttrsOf(computed.globals, n) == EffectiveGlobal(c, browserNames, n)
    requires computed.globalsToRemove == c.globalsToRemove && SameGroups(computed, c)
    ensures forall n :: EffectiveGlobal(computed, browserNames, n) == EffectiveGlobal(c, browserNames, n)
  {
    forall n
      ensures EffectiveGlobal(computed, browserNames, n) == EffectiveGlobal(c, browserNames, n)
    {
      assert AttrsOf(computed.globals, n) == EffectiveGlobal(c, browserNames, n);
    }
  }

  /** The order in which groups are enabled does not matter. */
  lemma AddGlobalGroupCommutes(c: Config, first: string, second: string)
    ensures AddGlobalGroup(AddGlobalGroup(c, first).1, second).1
         == AddGlobalGroup(AddGlobalGroup(c, second).1, first).1
  {
  }

  /** Enabling a group twice is enabling it once. */
  lemma AddGlobalGroupIdempotent(c: Config, groupName: string)
    ensures AddGlobalGroup(AddGlobalGroup(c, groupName).1, groupName) == AddGlobalGroup(c, groupName)
  {
  }

  /** Reset forgets everything loaded except the browser flag: two
      configurations that agree on it reset to the same state. */
  lemma ResetForgetsAllButBrowser(c: Config, d: Config)
    requires c.addBrowser == d.addBrowser
    ensures Reset(c) == Reset(d)
  {
  }
}
