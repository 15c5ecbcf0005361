/**
 * The plugin entry point `$.connectivityMonitor(methodOrOpts, ...)`: a method
 * name runs that method with the remaining arguments; an object or a falsy
 * value is handed to `init`; anything else raises
 * "Method <x> does not exist on jQuery.connectivityMonitor".
 */
module Dispatch {
  import opened Wrappers
  import opened MonitorOptions
  import opened ConnectivityMonitor

  /** A JavaScript argument value, as far as the entry point tells values apart. */
  datatype Arg =
    | Str(s: string)                     // a string
    | Object(patch: Patch, text: string) // a non-null object: its four option properties and its string conversion
    | Nothing                            // `undefined`, `null`, `false`, `0` or `NaN`
    | Other(text: string)                // `true`, a non-zero number or a function, with its string conversion

  /** What the call returns to its caller. */
  datatype Reply =
    | Done                   // the method ran and returned `undefined`
    | Error(message: string) // `$.error` threw
    | Foreign(name: string)  // a function inherited from Object.prototype ran

  /** The own properties of the `methods` table. */
  const Methods: set<string> := {"init", "start", "stop"}

  /**
   * Function-valued properties every object inherits from Object.prototype,
   * which a property lookup on `methods` also finds.
   */
  const Inherited: set<string> := {
    "constructor", "hasOwnProperty", "isPrototypeOf", "propertyIsEnumerable",
    "toLocaleString", "toString", "valueOf"
  }

  /** The string conversion of a plain object literal such as `{ slowTimeout: 1500 }`. */
  const PlainObjectText: string := "[object Object]"

  /**
   * True when the property key the argument converts to is in `names`. The
   * conversions of `undefined`, `null`, `false`, `0` and `NaN` name no
   * property of `methods`.
   */
  predicate KeyIn(a: Arg, names: set<string>) {
    match a
    case Str(s) => s in names
    case Object(_, t) => t in names
    case Other(t) => t in names
    case Nothing => false
  }

  /** The property key the argument converts to. */
  function Key(a: Arg): string
    requires !a.Nothing?
  {
    if a.Str? then a.s else a.text
  }

  function ErrorMessage(text: string): string {
    "Method " + text + " does not exist on jQuery.connectivityMonitor"
  }

  /** JavaScript truthiness of the first argument. */
  predicate Truthy(a: Arg) {
    match a
    case Str(s) => s != ""
    case Object(_, _) => true
    case Nothing => false
    case Other(_) => true
  }

  /** The string conversion of the first argument, for the error message. */
  function Text(a: Arg): string
    requires a.Str? || a.Other?
  {
    if a.Str? then a.s else a.text
  }

  /**
   * `init(opts)`: an object is merged into the options; `$.extend` skips
   * `null` and `undefined`, and a primitive contributes none of the four
   * properties.
   */
  function Init(m: Monitor, a: Arg): (r: Monitor)
    ensures r.counter == m.counter && r.timeStamps == m.timeStamps && r.registrations == m.registrations
    ensures a.Object? ==> r.options == Merge(m.options, a.patch)
    ensures !a.Object? ==> r.options == m.options
  {
    if a.Object? then m.(options := Merge(m.options, a.patch)) else m
  }

  /** Runs the own method `name`; `init` receives the argument after the name. */
  function RunMethod(m: Monitor, name: string, arg: Arg): Monitor
    requires name in Methods
  {
    if name == "init" then Init(m, arg)
    else if name == "start" then Start(m)
    else Stop(m)
  }

  /** The first arguments the entry point is meant to reject: a name that is not a method, or a truthy non-object. */
  predicate Unknown(a: Arg) {
    (a.Str? && a.s != "" && a.s !in Methods) || a.Other?
  }

  /**
   * The entry point as written: `methods[methodOrOpts]` is a JavaScript
   * property lookup, which converts any argument to a string key and also
   * finds the names inherited from Object.prototype. So an object whose
   * string conversion names a method (an array `["start"]`) runs that method,
   * and an inherited name runs its function instead of raising the error.
   */
  function CallAsWritten(m: Monitor, first: Arg, rest: Arg): (r: (Monitor, Reply))
    ensures KeyIn(first, Methods) ==> r == (RunMethod(m, Key(first), rest), Done)
    ensures r.1.Foreign? <==> KeyIn(first, Inherited)
    ensures r.1.Error? <==> Unknown(first) && !KeyIn(first, Methods + Inherited)
    ensures r.1.Error? ==> r.1.message == ErrorMessage(Text(first))
    ensures !KeyIn(first, Methods + Inherited) && (first.Object? || !Truthy(first)) ==> r == (Init(m, first), Done)
    ensures !r.1.Done? ==> r.0 == m
    ensures r.0.counter == m.counter && r.0.timeStamps == m.timeStamps
  {
    if KeyIn(first, Methods) then (RunMethod(m, Key(first), rest), Done)
    else if KeyIn(first, Inherited) then (m, Foreign(Key(first)))
    else if first.Object? || !Truthy(first) then (Init(m, first), Done)
    else (m, Error(ErrorMessage(Text(first))))
  }

  /**
   * The entry point as intended: only a string naming one of the three own
   * methods runs a method, so every other non-empty name raises the error and
   * every object is handed to `init`.
   */
  function Call(m: Monitor, first: Arg, rest: Arg): (r: (Monitor, Reply))
    ensures r.1.Error? <==> Unknown(first)
    ensures !r.1.Foreign?
    ensures r.1.Error? ==> r.0 == m && r.1.message == ErrorMessage(Text(first))
    ensures first == Str("init") ==> r.0.options == (if rest.Object? then Merge(m.options, rest.patch) else m.options)
    ensures first == Str("start") ==> r.0.registrations == m.registrations + 1
    ensures first == Str("stop") ==> r.0 == m
    ensures first.Object? ==> r.0.options == Merge(m.options, first.patch)
    ensures !Truthy(first) ==> r.0 == m
    ensures r.0.counter == m.counter && r.0.timeStamps == m.timeStamps
  {
    if first.Str? && first.s in Methods then (RunMethod(m, first.s, rest), Done)
    else if first.Object? || !Truthy(first) then (Init(m, first), Done)
    else (m, Error(ErrorMessage(Text(first))))
  }

  /** `$.connectivityMonitor("toString")` is not reported, though toString is no method of the monitor. */
  lemma InheritedNameSlipsThrough(m: Monitor, rest: Arg)
    ensures Unknown(Str("toString"))
    ensures CallAsWritten(m, Str("toString"), rest) == (m, Foreign("toString"))
    ensures Call(m, Str("toString"), rest) == (m, Error(ErrorMessage("toString")))
  {
  }

  /**
   * `$.connectivityMonitor(["start"])`: the array converts to the key
   * "start", so as written it registers the listeners instead of handing the
   * array to `init`, which would leave the state unchanged.
   */
  lemma ArrayNameRunsMethod(m: Monitor, rest: Arg)
    ensures CallAsWritten(m, Object(EmptyPatch, "start"), rest) == (Start(m), Done)
    ensures Call(m, Object(EmptyPatch, "start"), rest) == (m, Done)
  {
  }

  /**
   * The two entry points differ only on arguments whose key the property
   * lookup misroutes: an inherited name, or a non-string whose conversion
   * names a method. They reach the same state whenever the
   * argument is a string, or its conversion names no function of `methods`.
   */
  lemma CallAgreesWithWritten(m: Monitor, first: Arg, rest: Arg)
    ensures !KeyIn(first, Inherited) && (first.Str? || !KeyIn(first, Methods)) ==>
              Call(m, first, rest) == CallAsWritten(m, first, rest)
    ensures first.Str? || !KeyIn(first, Methods + Inherited) ==> Call(m, first, rest).0 == CallAsWritten(m, first, rest).0
  {
  }

  /** The test suite's configuration call installs its three callbacks and threshold. */
  lemma TestSuiteInit(f: Callback, g: Callback, h: Callback)
    ensures var p := Patch(Put(1500), Put(Some(f)), Put(Some(g)), Put(Some(h)));
            var m := CallAsWritten(Fresh, Str("init"), Object(p, PlainObjectText)).0;
            m.options == Options(1500, Some(f), Some(g), Some(h)) && m.counter == 0
  {
  }
}
