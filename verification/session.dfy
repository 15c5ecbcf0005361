/**
 * The monitor inside its host page: jQuery delivers global ajax events for
 * request objects (jqXHR) and the page calls the plugin entry point. The
 * `identifier` property a send listener writes onto a jqXHR is kept here as a
 * table from request handle to tag.
 */
module Session {
  import opened Wrappers
  import opened MonitorOptions
  import opened ConnectivityMonitor
  import opened Dispatch

  /** The identity of one jqXHR object. */
  type RequestId = nat

  datatype Event =
    | ApiCall(first: Arg, rest: Arg)
    | AjaxSend(request: RequestId, at: int)
    | AjaxSuccess(request: RequestId, at: int, responseText: string)
    | AjaxError(request: RequestId, statusText: string)

  datatype Host = Host(monitor: Monitor, tags: map<RequestId, nat>)

  const Loaded: Host := Host(Fresh, map[])

  /** The monitor is valid and every request's tag has a send time recorded. */
  ghost predicate HostValid(h: Host) {
    && Valid(h.monitor)
    && forall r :: r in h.tags ==> h.tags[r] in h.monitor.timeStamps
  }

  /** `xhr.identifier`: `undefined` for a request no send listener has tagged. */
  function TagOf(h: Host, r: RequestId): Option<nat> {
    if r in h.tags then Some(h.tags[r]) else None
  }

  /** Every recorded send time is still recorded, unchanged, in `h'`. */
  ghost predicate Keeps(h: Host, h': Host) {
    forall id :: id in h.monitor.timeStamps ==>
      id in h'.monitor.timeStamps && h'.monitor.timeStamps[id] == h.monitor.timeStamps[id]
  }

  /** One event, with the outcomes the registered listeners produce for it. */
  function Step(h: Host, e: Event): (r: (Host, seq<Outcome>))
    ensures r.0.monitor.counter >= h.monitor.counter
    ensures !e.AjaxSend? ==> r.0.monitor.counter == h.monitor.counter && r.0.monitor.timeStamps == h.monitor.timeStamps
    ensures e.AjaxSuccess? || e.AjaxError? ==> r.0 == h
    ensures e.ApiCall? ==> r.1 == [] && r.0.tags == h.tags
    ensures e.AjaxSend? ==> r.1 == [] && r.0.monitor.options == h.monitor.options
    ensures e.AjaxSend? && h.monitor.registrations > 0 ==>
              && e.request in r.0.tags
              && r.0.tags[e.request] == r.0.monitor.counter
              && r.0.tags[e.request] > h.monitor.counter
    ensures e.AjaxSuccess? ==> r.1 == Succeeded(h.monitor, TagOf(h, e.request), e.at, e.responseText)
    ensures e.AjaxError? ==> r.1 == Failed(h.monitor, e.statusText)
    ensures HostValid(h) ==> HostValid(r.0) && Keeps(h, r.0)
  {
    match e
    case ApiCall(first, rest) =>
      (h.(monitor := CallAsWritten(h.monitor, first, rest).0), [])
    case AjaxSend(req, at) =>
      if h.monitor.registrations == 0 then (h, [])
      else
        var (m', tag) := Send(h.monitor, TagOf(h, req), at);
        (Host(m', h.tags[req := tag.value]), [])
    case AjaxSuccess(req, at, text) =>
      (h, Succeeded(h.monitor, TagOf(h, req), at, text))
    case AjaxError(_, status) =>
      (h, Failed(h.monitor, status))
  }

  /** The host after a sequence of events. */
  function Run(h: Host, es: seq<Event>): Host
    decreases |es|
  {
    if es == [] then h else Run(Step(h, es[0]).0, es[1..])
  }

  /**
   * Over any run the identifier counter never goes back (neither `start` nor
   * `stop` resets it), the state stays valid, and no recorded send time is
   * ever removed or overwritten.
   */
  lemma {:induction false} RunKeepsHistory(h: Host, es: seq<Event>)
    requires HostValid(h)
    ensures HostValid(Run(h, es))
    ensures Run(h, es).monitor.counter >= h.monitor.counter
    ensures Keeps(h, Run(h, es))
    decreases |es|
  {
    if es != [] {
      var h1 := Step(h, es[0]).0;
      RunKeepsHistory(h1, es[1..]);
    }
  }

  /** A request's tag and send time survive every event that does not send that same request again. */
  lemma {:induction false} TagSurvives(h: Host, r: RequestId, es: seq<Event>)
    requires HostValid(h)
    requires r in h.tags
    requires forall i :: 0 <= i < |es| ==> !(es[i].AjaxSend? && es[i].request == r)
    ensures var h' := Run(h, es);
            && r in h'.tags
            && h'.tags[r] == h.tags[r]
            && h'.tags[r] in h'.monitor.timeStamps
            && h'.monitor.timeStamps[h'.tags[r]] == h.monitor.timeStamps[h.tags[r]]
    decreases |es|
  {
    if es != [] {
      var h1 := Step(h, es[0]).0;
      assert !(es[0].AjaxSend? && es[0].request == r);
      assert r in h1.tags && h1.tags[r] == h.tags[r];
      TagSurvives(h1, r, es[1..]);
    }
  }

  /**
   * A request sent while the monitor listens is classified by its own send
   * time, whatever other requests, completions and API calls happen in
   * between: every success listener reports slow exactly when the elapsed
   * time exceeds the threshold in force at completion.
   */
  lemma ClassifiedByOwnSendTime(h: Host, r: RequestId, sent: int, mid: seq<Event>, at: int, text: string)
    requires HostValid(h)
    requires h.monitor.registrations > 0
    requires forall i :: 0 <= i < |mid| ==> !(mid[i].AjaxSend? && mid[i].request == r)
    ensures var h1 := Run(Step(h, AjaxSend(r, sent)).0, mid);
            var outs := Step(h1, AjaxSuccess(r, at, text)).1;
            && |outs| == h1.monitor.registrations
            && forall i :: 0 <= i < |outs| ==>
                 outs[i] == (if at - sent > h1.monitor.options.slowTimeout then Slow(text) else Healthy(text))
  {
    var h0 := Step(h, AjaxSend(r, sent)).0;
    assert h0.monitor.timeStamps[h0.tags[r]] == sent;
    TagSurvives(h0, r, mid);
  }

  /** In a valid host a tagged request always finds its send time: misses only hit untagged requests. */
  lemma TaggedNeverMisses(h: Host, r: RequestId)
    requires HostValid(h)
    ensures Lookup(h.monitor.timeStamps, TagOf(h, r)).None? <==> r !in h.tags
  {
  }

  /** The freshly loaded plugin is valid, so every lemma above applies to any run of it. */
  lemma LoadedIsValid()
    ensures HostValid(Loaded)
  {
  }

  /** The test suite's `init` argument: threshold 1500 ms and three callbacks. */
  function SuitePatch(f: Callback, g: Callback, d: Callback): Patch {
    Patch(Put(1500), Put(Some(f)), Put(Some(g)), Put(Some(d)))
  }

  /** The host after the suite's `init`, one `start`, and the request `r` sent at time `t`. */
  function SuiteHost(f: Callback, g: Callback, d: Callback, r: RequestId, t: int): Host {
    Run(Loaded, [ApiCall(Str("init"), Object(SuitePatch(f, g, d), PlainObjectText)), ApiCall(Str("start"), Nothing), AjaxSend(r, t)])
  }

  lemma SuiteHostState(f: Callback, g: Callback, d: Callback, r: RequestId, t: int)
    ensures var h := SuiteHost(f, g, d, r, t);
            && h.monitor.options == Options(1500, Some(f), Some(g), Some(d))
            && h.monitor.registrations == 1
            && TagOf(h, r) == Some(1)
            && Lookup(h.monitor.timeStamps, TagOf(h, r)) == Some(t)
  {
    var es := [ApiCall(Str("init"), Object(SuitePatch(f, g, d), PlainObjectText)), ApiCall(Str("start"), Nothing), AjaxSend(r, t)];
    var h1 := Step(Loaded, es[0]).0;
    var h2 := Step(h1, es[1]).0;
    var h3 := Step(h2, es[2]).0;
    assert h3.monitor.timeStamps[h3.tags[r]] == t;
    assert Run(h3, []) == h3;
    assert Run(h2, [es[2]]) == Run(h3, []);
    assert es[1..][1..] == [es[2]];
    assert Run(h1, es[1..]) == Run(h2, [es[2]]);
    assert Run(Loaded, es) == Run(h1, es[1..]);
  }

  /**
   * The four cases of the test suite for the first test to run, which sees
   * one registration: an answer
   * within 1500 ms calls onConnection once with the response text, an answer
   * after more than 1500 ms calls onSlowConnection once, a timeout calls
   * onDeadConnection once with "timeout", and any other failure calls nothing.
   */
  lemma SuiteScenarios(f: Callback, g: Callback, d: Callback, r: RequestId, t: int, elapsed: int, text: string, status: string)
    requires status != "timeout"
    ensures var h := SuiteHost(f, g, d, r, t);
            var o := h.monitor.options;
            && (elapsed <= 1500 ==> Step(h, AjaxSuccess(r, t + elapsed, text)).1 == [Healthy(text)]
                                    && Deliver(o, Healthy(text)) == Invoke(f, text))
            && (elapsed > 1500 ==> Step(h, AjaxSuccess(r, t + elapsed, text)).1 == [Slow(text)]
                                   && Deliver(o, Slow(text)) == Invoke(g, text))
            && Step(h, AjaxError(r, "timeout")).1 == [Dead("timeout")]
            && Deliver(o, Dead("timeout")) == Invoke(d, "timeout")
            && Step(h, AjaxError(r, status)).1 == [NoCall]
            && Deliver(o, NoCall) == NothingCalled
  {
    SuiteHostState(f, g, d, r, t);
  }

  /**
   * A test that does not run first sees every callback called more than
   * once: after the first test's `start` and `stop` and its own `start`, an
   * answer 1501 ms after the send yields two slow outcomes, where the test
   * expects onSlowConnection to be called once.
   */
  lemma LaterTestSeesDuplicates(f: Callback, g: Callback, d: Callback, r: RequestId, t: int, text: string)
    ensures var h := Run(Loaded, [ApiCall(Str("init"), Object(SuitePatch(f, g, d), PlainObjectText)),
                                  ApiCall(Str("start"), Nothing), ApiCall(Str("stop"), Nothing),
                                  ApiCall(Str("start"), Nothing), AjaxSend(r, t)]);
            Step(h, AjaxSuccess(r, t + 1501, text)).1 == [Slow(text), Slow(text)]
  {
    var es := [ApiCall(Str("init"), Object(SuitePatch(f, g, d), PlainObjectText)),
               ApiCall(Str("start"), Nothing), ApiCall(Str("stop"), Nothing),
               ApiCall(Str("start"), Nothing), AjaxSend(r, t)];
    var h1 := Step(Loaded, es[0]).0;
    var h2 := Step(h1, es[1]).0;
    var h3 := Step(h2, es[2]).0;
    var h4 := Step(h3, es[3]).0;
    var h5 := Step(h4, es[4]).0;
    assert h4.monitor.registrations == 2 && h4.monitor.options.slowTimeout == 1500;
    assert h5.monitor.timeStamps[h5.tags[r]] == t;
    assert Run(h5, []) == h5;
    assert es[1..][1..][1..][1..] == [es[4]];
    assert Run(h4, [es[4]]) == Run(h5, []);
    assert Run(h3, es[1..][1..][1..]) == Run(h4, [es[4]]);
    assert Run(h2, es[1..][1..]) == Run(h3, es[1..][1..][1..]);
    assert Run(h1, es[1..]) == Run(h2, es[1..][1..]);
    assert Run(Loaded, es) == Run(h1, es[1..]);
  }

  /**
   * The suite calls `start` before and `stop` after every test. Since `stop`
   * detaches nothing, each such cycle adds one registration, so the n-th test
   * to run sees every callback it expects called n times.
   */
  lemma {:induction false} CyclesAccumulate(h: Host, n: nat)
    ensures Run(h, Cycles(n)).monitor.registrations == h.monitor.registrations + n
    ensures Run(h, Cycles(n)).monitor.counter == h.monitor.counter
    decreases n
  {
    if n > 0 {
      var h1 := Step(h, ApiCall(Str("stop"), Nothing)).0;
      var h2 := Step(h1, ApiCall(Str("start"), Nothing)).0;
      assert Cycles(n)[1..][1..] == Cycles(n - 1);
      assert Run(h, Cycles(n)) == Run(h1, Cycles(n)[1..]);
      assert Run(h1, Cycles(n)[1..]) == Run(h2, Cycles(n - 1));
      CyclesAccumulate(h2, n - 1);
    }
  }

  /** `n` repetitions of a `stop` followed by a `start`. */
  function Cycles(n: nat): seq<Event> {
    if n == 0 then [] else [ApiCall(Str("stop"), Nothing), ApiCall(Str("start"), Nothing)] + Cycles(n - 1)
  }
}
