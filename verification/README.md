# Connectivity monitor, modelled in Dafny

This project models `$.connectivityMonitor`, a jQuery plugin that watches every
ajax request of a page and reports the connection as healthy, slow or dead.
The plugin keeps three pieces of module-level state: an options record, an
identifier counter and a table from identifier to send time. `start`
registers three listeners on jQuery's global ajax events:

- ajaxSend tags the request with `++counter` and records its send time.
- ajaxSuccess compares the elapsed time with `slowTimeout`. More than the
  threshold calls `onSlowConnection`; otherwise `onConnection` is called.
- ajaxError calls `onDeadConnection` only for the status text `"timeout"`.

`init` shallow-merges options with `$.extend`. `stop` is empty. The entry
point dispatches on a method name or treats an object as `init`'s argument.

The model is functional. Each step takes an immutable state and returns the
new state, and the listeners return `Outcome` values (`Healthy`, `Slow`,
`Dead`, `NoCall`) instead of calling functions. `Deliver` says which
callback slot an outcome reaches.

Modules:

- `Wrappers` (`wrappers.dfy`): `Option`.
- `MonitorOptions` (`options.dfy`): the options record, its defaults and the
  `$.extend` merge.
- `ConnectivityMonitor` (`monitor.dfy`): the state, the three listeners, the
  classification and the callback delivery.
- `Dispatch` (`dispatch.dfy`): the `$.connectivityMonitor(methodOrOpts, …)`
  entry point.
- `Session` (`session.dfy`): the monitor inside a page. It tracks which
  jqXHR carries which identifier and runs traces of events. It holds the
  whole-run properties and the test suite's scenarios.

Behaviour of the code that the model keeps as written:

- The default callbacks are the result of calling `$.noop()`, which is
  `undefined`. Before an `init` supplies them, any outcome other than
  `NoCall` raises a TypeError (`Invocation.NotAFunction`). The model
  follows the code.
- A request that was never tagged has an `undefined` send time, so
  `undefined + slowTimeout` is NaN. Every comparison with NaN is false, so
  such a request is classified healthy, however long it took.
- Timestamp entries are never removed.
- `stop` removes no listener. Each `start` adds one more listener set. With
  `k` registrations, one request mints `k` identifiers and is tagged with the
  last of them. Each success or error then yields `k` identical outcomes. The
  model follows the code.
- The test suite calls `start` before every test and `stop` after it. Because
  `stop` removes nothing, only the first test to run sees one registration.
  The three tests that expect exactly one call (onConnection, onSlowConnection,
  onDeadConnection) see their callback called once per registration, so
  more than once unless they run first (`Session.LaterTestSeesDuplicates`).
  The test that expects no call at all holds at any registration count.
- `$.extend` skips properties whose value is `undefined` and copies `null`.
  A callback slot can therefore be emptied with `null` but not with
  `undefined`.

## Model

| member | source | states |
|---|---|---|
| MonitorOptions.Merge | src/connectivityMonitor.js:16-18 | each field the `init` argument supplies replaces the current one; each field it leaves out or sets to `undefined` keeps its current value |
| MonitorOptions.MergeIdempotent | src/connectivityMonitor.js:16-18 | applying the same `init` twice gives the same options as applying it once |
| MonitorOptions.MergeEmptyIsIdentity | src/connectivityMonitor.js:16-18 | an `init` argument supplying none of the four fields leaves the options unchanged |
| MonitorOptions.MergeSequential | src/connectivityMonitor.js:16-18 | two `init` calls equal one call with the combined argument, where the later value of each field wins (no reset to defaults in between) |
| MonitorOptions.MergeCompleteOverrides | src/connectivityMonitor.js:16-18 | an `init` supplying all four fields yields the same options whatever they were before |
| ConnectivityMonitor.Start | src/connectivityMonitor.js:20-39 | `start` adds exactly one listener registration and leaves counter, table and options alone |
| ConnectivityMonitor.OnSend | src/connectivityMonitor.js:21-24 | the new identifier is `counter + 1` and becomes the counter; the table gains exactly that key, holding the send time; every other entry is unchanged; in a valid state the identifier was never used before |
| ConnectivityMonitor.SendListeners | src/connectivityMonitor.js:21-24 | `k` send listeners advance the counter by `k`; the request ends tagged with the last identifier; the `k` new keys all hold the send time; older entries are unchanged; validity is kept |
| ConnectivityMonitor.Stop | src/connectivityMonitor.js:41-43 | `stop` changes no state: no listener registration is removed, and the counter, table and options stay as they are |
| ConnectivityMonitor.Send | src/connectivityMonitor.js:21-24 | with listeners registered, the request's tag is the new counter and its entry holds the send time; with none, nothing changes |
| ConnectivityMonitor.SendLeavesOrphans | src/connectivityMonitor.js:21-24 | with `k` registrations one request adds exactly `k` new entries to the table |
| ConnectivityMonitor.Lookup | src/connectivityMonitor.js:27 | `timeStamps[xhr.identifier]` is a send time exactly when the request is tagged and its tag is in the table, and then it is that entry; otherwise it is `undefined` |
| ConnectivityMonitor.Classify | src/connectivityMonitor.js:27-31 | slow exactly when the send time is known and the elapsed time strictly exceeds `slowTimeout`; healthy exactly when the send time is missing or the elapsed time is at most `slowTimeout`; the payload is the response text |
| ConnectivityMonitor.ClassifyBoundary | src/connectivityMonitor.js:27 | elapsed time equal to the threshold is healthy, and one millisecond more is slow |
| ConnectivityMonitor.MissingSendTimeIsHealthy | src/connectivityMonitor.js:26-31 | a request with no recorded send time is reported healthy by every listener |
| ConnectivityMonitor.Succeeded | src/connectivityMonitor.js:26-32 | a success yields one outcome per registration, each the classification of this request |
| ConnectivityMonitor.OnError | src/connectivityMonitor.js:34-38 | the outcome is `Dead("timeout")` exactly when the status text is `"timeout"`, and `NoCall` otherwise |
| ConnectivityMonitor.Failed | src/connectivityMonitor.js:34-38 | an error yields one outcome per registration, each the error listener's decision |
| ConnectivityMonitor.Deliver | src/connectivityMonitor.js:27-37 | `NoCall` calls nothing; any other outcome calls the function in its own slot with its payload or reason; if that slot holds no function, a TypeError names the slot |
| ConnectivityMonitor.DefaultsAreNotFunctions | src/connectivityMonitor.js:3-8 | under the default options, every outcome other than `NoCall` raises a TypeError |
| ConnectivityMonitor.InitialisedSlotsAreCalled | src/connectivityMonitor.js:16-38 | once `init` has put a function in every slot, every outcome other than `NoCall` reaches a callback, with the outcome's argument |
| ConnectivityMonitor.RestartDuplicatesListeners | src/connectivityMonitor.js:20-43 | start, stop, start keeps the counter and the table, and leaves two more listeners answering each success and error |
| Dispatch.Init | src/connectivityMonitor.js:16-18 | an object argument is merged into the options; `null`, `undefined` and primitives leave the options unchanged; counter, table and registrations are never touched |
| Dispatch.CallAsWritten | src/connectivityMonitor.js:46-54 | as written: any argument whose string conversion names a method runs it, objects included; a conversion naming an Object.prototype function runs that function; the error is raised only for other unknown names and truthy non-objects; nothing but a method or `init` changes the state, and the counter and table are never touched |
| Dispatch.Call | src/connectivityMonitor.js:46-54 | the entry point with the lookup limited to init, start and stop: an error with the "does not exist" message exactly for an unknown non-empty name or a truthy non-object; `init` and `start` act as their methods, and `stop` changes nothing; objects and falsy values go to `init`; the counter and table are never touched |
| Dispatch.InheritedNameSlipsThrough | src/connectivityMonitor.js:47-52 | `"toString"` is no method of the monitor, yet as written it runs without the error; the corrected entry point reports it |
| Dispatch.ArrayNameRunsMethod | src/connectivityMonitor.js:47-50 | as written, an array `["start"]` registers the listeners; the corrected entry point hands it to `init`, which changes nothing |
| Dispatch.CallAgreesWithWritten | src/connectivityMonitor.js:46-54 | the two entry points agree except on an inherited name or a non-string whose conversion names a method; they reach the same state for every string argument |
| Dispatch.TestSuiteInit | test/connectivityMonitorSpec.js:8-13 | the suite's configuration call installs threshold 1500 and its three callbacks |
| Session.Step | src/connectivityMonitor.js:20-38 | only sends move the counter, and never backwards; successes and errors change no state; a send with listeners registered tags the request with an identifier above every earlier one; validity is kept and no recorded send time is lost or changed |
| Session.RunKeepsHistory | src/connectivityMonitor.js:10-43 | over any run the counter never decreases, even across `start` and `stop`; validity is kept; no send time is removed or overwritten |
| Session.TagSurvives | src/connectivityMonitor.js:21-27 | a request's tag and its send time survive every event except sending that request again |
| Session.ClassifiedByOwnSendTime | src/connectivityMonitor.js:21-32 | a request sent while listeners are registered is classified by its own send time and the threshold in force at completion, whatever events come in between |
| Session.TaggedNeverMisses | src/connectivityMonitor.js:22-27 | in a valid host the send-time lookup misses exactly for requests that were never tagged |
| Session.LoadedIsValid | src/connectivityMonitor.js:3-12 | the freshly loaded plugin's state is valid |
| Session.SuiteHostState | test/connectivityMonitorSpec.js:8-29 | after the suite's `init`, one `start` and one send, the request is tagged 1 with its send time recorded |
| Session.SuiteScenarios | test/connectivityMonitorSpec.js:39-98 | for the first test to run (one registration): within 1500 ms onConnection gets the response text once; beyond it onSlowConnection gets it once; a timeout gives onDeadConnection `"timeout"` once; any other failure calls nothing |
| Session.LaterTestSeesDuplicates | test/connectivityMonitorSpec.js:28-69 | after one earlier test's `start` and `stop` and its own `start`, an answer 1501 ms late yields two slow outcomes, while the test expects one call |
| Session.CyclesAccumulate | test/connectivityMonitorSpec.js:15-37 | each stop-then-start cycle of the suite adds one registration and leaves the counter alone |

## Findings

| source | as written | input that shows it | evidently intended | confidence | as-written member | corrected member |
|---|---|---|---|---|---|---|
| src/connectivityMonitor.js:47 | `methods[methodOrOpts]` is a JavaScript property lookup, which also finds the functions every object inherits from Object.prototype | `$.connectivityMonitor('toString')` runs `Object.prototype.toString` and raises nothing (`Dispatch.InheritedNameSlipsThrough`) | every name other than `init`, `start` and `stop` raises "Method … does not exist on jQuery.connectivityMonitor" | medium; not executed | Dispatch.CallAsWritten | Dispatch.Call |
| src/connectivityMonitor.js:47 | the property lookup converts any argument to a string key, objects included | `$.connectivityMonitor(['start'])` registers the listeners instead of passing the array to `init` (`Dispatch.ArrayNameRunsMethod`) | only a string names a method; every object goes to `init` | medium; not executed | Dispatch.CallAsWritten | Dispatch.Call |

`Session` runs API calls through the entry point as written,
`Dispatch.CallAsWritten`, so its run lemmas hold of the code as it is. By
`Dispatch.CallAgreesWithWritten`, the corrected `Dispatch.Call` reaches the
same state for every string argument.

## Left out

- Listener registration on `document` and the `Function.apply` argument slicing are jQuery plumbing. Registration is kept only as a count.
- The XHR transport is left out. So are jasmine's mock-ajax and mock-clock set-up. Events enter the model as parameters (request handle, time, response or status text).
- Callback side effects are left out. So is what jQuery does with a TypeError thrown from a listener, and whether the remaining listeners still run. `Deliver` only reports which slot is called and with what.
- Timestamps are integer milliseconds. Fractional `event.timeStamp` values and floating-point arithmetic are not modelled.
- The counter is an unbounded `nat`. It does not model JavaScript numbers losing precision above 2^53.
- Option values of other types are not modelled, for example a string `slowTimeout` or a non-function in a callback slot other than `null` and `undefined`.
- Extra properties of the `init` argument are not modelled. `$.extend` copies them, but the monitor never reads them.
- `Dispatch.CallAsWritten` covers the seven standard function-valued members of Object.prototype. It leaves out `__proto__` and the legacy accessor helpers, and it does not model the return value of the inherited function.
- `Session.Run` keeps processing events after an API call raised its error. The error leaves the state unchanged, so only the caller's control flow is left out.
- Multi-threaded delivery is out of scope. The code is single-threaded and event-driven.
