/**
 * The connectivity monitor's state and the three listeners that `start`
 * registers on jQuery's global ajax events: on send it tags the request with a
 * fresh identifier and records the send time; on success it classifies the
 * request as healthy or slow; on error it reports a timeout as dead.
 */
module ConnectivityMonitor {
  import opened Wrappers
  import opened MonitorOptions

  /**
   * The module-level state: the options record, the identifier counter, the
   * table from identifier to send time (milliseconds), and how many times
   * `start` has registered the three listeners.
   */
  datatype Monitor = Monitor(
    options: Options,
    counter: nat,
    timeStamps: map<nat, int>,
    registrations: nat)

  /** The state when the plugin script has just been loaded. */
  const Fresh: Monitor := Monitor(Defaults, 0, map[], 0)

  /** Every recorded identifier has been minted, and identifiers start at 1. */
  ghost predicate Valid(m: Monitor) {
    forall id :: id in m.timeStamps ==> 1 <= id <= m.counter
  }

  /** What one listener asks of the callbacks in response to one event. */
  datatype Outcome =
    | Healthy(payload: string)
    | Slow(payload: string)
    | Dead(reason: string)
    | NoCall

  // ---------------------------------------------------------------------
  // Lifecycle
  // ---------------------------------------------------------------------

  /** `start`: registers one more set of the three listeners. */
  function Start(m: Monitor): (r: Monitor)
    ensures r.registrations == m.registrations + 1
    ensures r.counter == m.counter && r.timeStamps == m.timeStamps && r.options == m.options
  {
    m.(registrations := m.registrations + 1)
  }

  /** `stop`: its body is empty, so no listener is removed and no state changes. */
  function Stop(m: Monitor): (r: Monitor)
    ensures r == m
  {
    m
  }

  // ---------------------------------------------------------------------
  // ajaxSend
  // ---------------------------------------------------------------------

  /**
   * One send listener: `xhr.identifier = ++counter` and
   * `timeStamps[xhr.identifier] = event.timeStamp`. Returns the new state and
   * the identifier it assigned.
   */
  function OnSend(m: Monitor, at: int): (r: (Monitor, nat))
    ensures r.1 == m.counter + 1 && r.0.counter == r.1
    ensures r.1 in r.0.timeStamps && r.0.timeStamps[r.1] == at
    ensures r.0.timeStamps.Keys == m.timeStamps.Keys + {r.1}
    ensures forall id :: id in m.timeStamps && id != r.1 ==> r.0.timeStamps[id] == m.timeStamps[id]
    ensures Valid(m) ==> r.1 !in m.timeStamps && Valid(r.0)
    ensures r.0.options == m.options && r.0.registrations == m.registrations
  {
    var id := m.counter + 1;
    (m.(counter := id, timeStamps := m.timeStamps[id := at]), id)
  }

  /**
   * The first `k` registered send listeners run in turn on the same request.
   * Each mints its own identifier and overwrites the request's tag, so the tag
   * ends as the last identifier minted, and all `k` entries hold the same time.
   */
  function SendListeners(m: Monitor, tag: Option<nat>, at: int, k: nat): (r: (Monitor, Option<nat>))
    ensures r.0.counter == m.counter + k
    ensures r.0.options == m.options && r.0.registrations == m.registrations
    ensures k == 0 ==> r.1 == tag
    ensures k > 0 ==> r.1 == Some(r.0.counter)
    ensures forall id :: id in r.0.timeStamps <==> id in m.timeStamps || m.counter < id <= m.counter + k
    ensures forall id :: m.counter < id <= m.counter + k ==> id in r.0.timeStamps && r.0.timeStamps[id] == at
    ensures forall id :: id in m.timeStamps && !(m.counter < id <= m.counter + k) ==>
              r.0.timeStamps[id] == m.timeStamps[id]
    ensures Valid(m) ==> Valid(r.0)
  {
    if k == 0 then
      (m, tag)
    else
      var (m1, _) := SendListeners(m, tag, at, k - 1);
      var (m2, id) := OnSend(m1, at);
      (m2, Some(id))
  }

  /** The ajaxSend event reaching every registered send listener. */
  function Send(m: Monitor, tag: Option<nat>, at: int): (r: (Monitor, Option<nat>))
    ensures r.0.counter == m.counter + m.registrations
    ensures m.registrations > 0 ==> r.1 == Some(r.0.counter) && r.0.counter in r.0.timeStamps && r.0.timeStamps[r.0.counter] == at
    ensures m.registrations == 0 ==> r == (m, tag)
  {
    SendListeners(m, tag, at, m.registrations)
  }

  // ---------------------------------------------------------------------
  // ajaxSuccess
  // ---------------------------------------------------------------------

  /** A JavaScript number as far as this monitor produces one: an integer, or NaN. */
  datatype Num = Int(i: int) | NaN

  /** `timeStamps[xhr.identifier]`: `undefined` when the request was never tagged or is not in the table. */
  function Lookup(table: map<nat, int>, tag: Option<nat>): (sent: Option<int>)
    ensures sent.Some? <==> tag.Some? && tag.value in table
    ensures sent.Some? ==> sent.value == table[tag.value]
  {
    if tag.Some? && tag.value in table then Some(table[tag.value]) else None
  }

  /** JavaScript `sent + n` where `sent` may be `undefined`, which yields NaN. */
  function Plus(sent: Option<int>, n: int): Num {
    match sent
    case Some(s) => Int(s + n)
    case None => NaN
  }

  /** JavaScript `a > b`: every comparison with NaN is false. */
  predicate Greater(a: int, b: Num) {
    b.Int? && a > b.i
  }

  /**
   * One success listener's decision: `event.timeStamp > sent + slowTimeout`
   * means slow, anything else healthy. The comparison is strict, and a missing
   * send time makes it false.
   */
  function Classify(slowTimeout: int, sent: Option<int>, at: int, responseText: string): (c: Outcome)
    ensures c == Slow(responseText) <==> sent.Some? && at - sent.value > slowTimeout
    ensures c == Healthy(responseText) <==> sent.None? || at - sent.value <= slowTimeout
  {
    if Greater(at, Plus(sent, slowTimeout)) then Slow(responseText) else Healthy(responseText)
  }

  /** The ajaxSuccess event: every registered success listener classifies the request the same way. */
  function Succeeded(m: Monitor, tag: Option<nat>, at: int, responseText: string): (outs: seq<Outcome>)
    ensures |outs| == m.registrations
    ensures forall i :: 0 <= i < |outs| ==>
              outs[i] == Classify(m.options.slowTimeout, Lookup(m.timeStamps, tag), at, responseText)
  {
    seq(m.registrations, _ => Classify(m.options.slowTimeout, Lookup(m.timeStamps, tag), at, responseText))
  }

  // ---------------------------------------------------------------------
  // ajaxError
  // ---------------------------------------------------------------------

  /** One error listener: only a status text of "timeout" is reported, as dead. */
  function OnError(statusText: string): (c: Outcome)
    ensures c == Dead("timeout") <==> statusText == "timeout"
    ensures c != Dead("timeout") ==> c == NoCall
  {
    if statusText == "timeout" then Dead(statusText) else NoCall
  }

  /** The ajaxError event: every registered error listener decides the same way. */
  function Failed(m: Monitor, statusText: string): (outs: seq<Outcome>)
    ensures |outs| == m.registrations
    ensures forall i :: 0 <= i < |outs| ==> outs[i] == OnError(statusText)
  {
    seq(m.registrations, _ => OnError(statusText))
  }

  // ---------------------------------------------------------------------
  // Calling the callbacks
  // ---------------------------------------------------------------------

  /** What a listener's call through an options slot amounts to. */
  datatype Invocation =
    | Invoke(callback: Callback, argument: string)
    | NothingCalled
    | NotAFunction(slot: string)   // calling `undefined` or `null` raises a TypeError

  /** The slot an outcome is delivered through, with its property name. */
  function SlotOf(o: Options, c: Outcome): (Slot, string)
    requires c != NoCall
  {
    match c
    case Healthy(_) => (o.onConnection, "onConnection")
    case Slow(_) => (o.onSlowConnection, "onSlowConnection")
    case Dead(_) => (o.onDeadConnection, "onDeadConnection")
  }

  /** The argument an outcome passes to its callback. */
  function ArgumentOf(c: Outcome): string
    requires c != NoCall
  {
    if c.Dead? then c.reason else c.payload
  }

  /**
   * `options.onConnection(xhr.responseText)` and its two siblings: the
   * outcome's slot is called with the outcome's argument, and a slot that does
   * not hold a function raises a TypeError instead.
   */
  function Deliver(o: Options, c: Outcome): (inv: Invocation)
    ensures inv == NothingCalled <==> c == NoCall
    ensures inv.Invoke? ==> SlotOf(o, c).0 == Some(inv.callback) && inv.argument == ArgumentOf(c)
    ensures inv.NotAFunction? <==> c != NoCall && SlotOf(o, c).0.None?
    ensures inv.NotAFunction? ==> inv.slot == SlotOf(o, c).1
  {
    match c
    case NoCall => NothingCalled
    case Healthy(p) => if o.onConnection.Some? then Invoke(o.onConnection.value, p) else NotAFunction("onConnection")
    case Slow(p) => if o.onSlowConnection.Some? then Invoke(o.onSlowConnection.value, p) else NotAFunction("onSlowConnection")
    case Dead(s) => if o.onDeadConnection.Some? then Invoke(o.onDeadConnection.value, s) else NotAFunction("onDeadConnection")
  }

  // ---------------------------------------------------------------------
  // Properties
  // ---------------------------------------------------------------------

  /** Elapsed time exactly equal to the threshold is healthy, one millisecond more is slow. */
  lemma ClassifyBoundary(slowTimeout: int, sent: int, text: string)
    ensures Classify(slowTimeout, Some(sent), sent + slowTimeout, text) == Healthy(text)
    ensures Classify(slowTimeout, Some(sent), sent + slowTimeout + 1, text) == Slow(text)
  {
  }

  /** A request whose send time is unknown is healthy however long it took. */
  lemma MissingSendTimeIsHealthy(m: Monitor, tag: Option<nat>, at: int, text: string)
    requires tag.None? || tag.value !in m.timeStamps
    ensures forall c :: c in Succeeded(m, tag, at, text) ==> c == Healthy(text)
  {
  }

  /** Under the defaults every outcome that calls a callback raises a TypeError. */
  lemma DefaultsAreNotFunctions(c: Outcome)
    requires c != NoCall
    ensures Deliver(Defaults, c).NotAFunction?
  {
  }

  /** Once `init` has put a function in every slot, every outcome but NoCall reaches its callback. */
  lemma InitialisedSlotsAreCalled(o: Options, p: Patch, c: Outcome)
    requires p.onConnection.Put? && p.onConnection.value.Some?
    requires p.onSlowConnection.Put? && p.onSlowConnection.value.Some?
    requires p.onDeadConnection.Put? && p.onDeadConnection.value.Some?
    requires c != NoCall
    ensures Deliver(Merge(o, p), c).Invoke?
    ensures Deliver(Merge(o, p), c).argument == ArgumentOf(c)
  {
  }

  /**
   * `stop` detaches nothing and resets nothing: after start, stop, start, the
   * counter is where it was and every event reaches two more listeners.
   */
  lemma RestartDuplicatesListeners(m: Monitor, tag: Option<nat>, at: int, text: string, status: string)
    ensures var m' := Start(Stop(Start(m)));
            && m'.counter == m.counter
            && m'.timeStamps == m.timeStamps
            && |Succeeded(m', tag, at, text)| == |Succeeded(m, tag, at, text)| + 2
            && |Failed(m', status)| == |Failed(m, status)| + 2
  {
  }

  /**
   * With `k` registrations a single request adds `k` entries to the table;
   * only the last is its tag, the `k - 1` before it are never looked up.
   */
  lemma {:induction false} SendLeavesOrphans(m: Monitor, tag: Option<nat>, at: int, k: nat)
    requires Valid(m)
    ensures |SendListeners(m, tag, at, k).0.timeStamps.Keys| == |m.timeStamps.Keys| + k
  {
    if k > 0 {
      var prev := SendListeners(m, tag, at, k - 1).0;
      SendLeavesOrphans(m, tag, at, k - 1);
      var next := OnSend(prev, at);
      assert SendListeners(m, tag, at, k).0 == next.0;
      assert next.1 !in prev.timeStamps.Keys;
      assert next.0.timeStamps.Keys == prev.timeStamps.Keys + {next.1};
    }
  }
}
