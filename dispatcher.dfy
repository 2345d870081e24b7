/** The action dispatcher `execute` with `isAvailable` and `openUrl`, as functions from
    the cache, the action and its arguments to what one invocation does: whether the
    action was handled, the new cache, the events it produces in order (resolutions
    sent to that invocation's callback and tabs launched), and whether the platform
    was queried. */
module Dispatcher {
  import opened Platform
  import opened Prober

  datatype Outcome = Outcome(
    handled: bool,
    state: ProbeState,
    events: seq<Event>,
    queried: bool)

  /** A call that touches neither the cache, the callback, the platform nor the screen. */
  function Inert(st: ProbeState, handled: bool): Outcome {
    Outcome(handled, st, [], false)
  }

  function IsAvailable(st: ProbeState, answer: ServiceList): (r: Outcome)
    ensures r.handled
    // exactly one event, an OK resolution carrying whether a provider package is known
    ensures st.findCalled ==> r.events == [Resolve(Ok(st.browser.Some?))]
    ensures !st.findCalled ==>
              r.events == [Resolve(Ok(Usable(answer) && Resolved(answer).value.Some?))]
    // the cache moves exactly as the probe moves it
    ensures r.state == Probe(st, answer).state && r.queried == Probe(st, answer).queried
  {
    var p := Probe(st, answer);
    Outcome(true, p.state, [Resolve(Ok(p.result.Some?))], p.queried)
  }

  function OpenUrl(st: ProbeState, args: seq<JsonValue>, answer: ServiceList,
                   color: ToolbarColor): (r: Outcome)
    ensures r.handled
    // argument errors are reported once, before any probe or launch
    ensures |args| == 0 ==> r == Outcome(true, st, [Resolve(Failed(UrlMissing))], false)
    ensures |args| > 0 && args[0].asString.None? ==>
              r == Outcome(true, st, [Resolve(Failed(UrlNotString))], false)
    // with a readable URL: one probe; the missing-provider error exactly when the probe
    // found no package; then exactly one launch of that URL; then success
    ensures |args| > 0 && args[0].asString.Some? ==>
              r.state == Probe(st, answer).state && r.queried == Probe(st, answer).queried &&
              r.events ==
                (if Probe(st, answer).result.None? then [Resolve(Failed(NoProvider))] else []) +
                [Launched(Launch(args[0].asString.value, color)), Resolve(Succeeded)]
  {
    if |args| < 1 then Outcome(true, st, [Resolve(Failed(UrlMissing))], false)
    else match args[0].asString
      case None => Outcome(true, st, [Resolve(Failed(UrlNotString))], false)
      case Some(url) =>
        var p := Probe(st, answer);
        var warning := if p.result.None? then [Resolve(Failed(NoProvider))] else [];
        Outcome(true, p.state, warning + [Launched(Launch(url, color)), Resolve(Succeeded)],
                p.queried)
  }

  /** Whether an invocation asks the platform for a provider (given nothing is cached). */
  predicate Probes(action: string, args: seq<JsonValue>) {
    action == "isAvailable" || (action == "openUrl" && |args| > 0 && args[0].asString.Some?)
  }

  /** The event sequences an invocation can produce, whatever the cache: `isAvailable`
      resolves once with OK; `openUrl` resolves once with an argument error, or launches
      and then succeeds, or reports the missing provider, launches and then succeeds;
      `close` and unknown actions produce nothing and leave the cache alone. */
  predicate Shape(st: ProbeState, action: string, args: seq<JsonValue>, r: Outcome) {
    (r.handled <==> action == "isAvailable" || action == "openUrl" || action == "close") &&
    (r.queried <==> Probes(action, args) && !st.findCalled) &&
    (action == "isAvailable" ==>
       |r.events| == 1 && r.events[0].Resolve? && r.events[0].resolution.Ok?) &&
    (action == "openUrl" ==>
       (r.events == [Resolve(Failed(UrlMissing))] && |args| == 0) ||
       (r.events == [Resolve(Failed(UrlNotString))] && |args| > 0) ||
       (Probes(action, args) && |r.events| == 2 &&
        r.events[0].Launched? && r.events[1] == Resolve(Succeeded)) ||
       (Probes(action, args) && |r.events| == 3 && r.events[0] == Resolve(Failed(NoProvider)) &&
        r.events[1].Launched? && r.events[2] == Resolve(Succeeded))) &&
    (action != "isAvailable" && action != "openUrl" ==> r == Inert(st, r.handled))
  }

  function Execute(st: ProbeState, action: string, args: seq<JsonValue>, answer: ServiceList,
                   color: ToolbarColor): (r: Outcome)
    ensures Shape(st, action, args, r)
    ensures Valid(st) ==> Valid(r.state)
    // only a probe can change the cache, and then as the probe does
    ensures r.state == (if Probes(action, args) then Probe(st, answer).state else st)
  {
    if action == "isAvailable" then IsAvailable(st, answer)
    else if action == "openUrl" then OpenUrl(st, args, answer, color)
    else if action == "close" then Inert(st, true)
    else Inert(st, false)
  }

  /** What one invocation's callback and screen see: the callback is resolved iff the
      action is `isAvailable` or `openUrl`, at most twice and twice only as the
      missing-provider error then success; at most one tab is launched, and a launch is
      always followed directly by success. */
  lemma ExecuteResolutions(st: ProbeState, action: string, args: seq<JsonValue>,
                           answer: ServiceList, color: ToolbarColor)
    ensures var o := Execute(st, action, args, answer, color);
            (Resolutions(o.events) != [] <==> action == "isAvailable" || action == "openUrl") &&
            |Resolutions(o.events)| <= 2 && |Launches(o.events)| <= 1 &&
            (|Resolutions(o.events)| == 2 ==>
               Resolutions(o.events) == [Failed(NoProvider), Succeeded] &&
               |Launches(o.events)| == 1) &&
            (forall j :: 0 <= j < |o.events| && o.events[j].Launched? ==>
               j + 1 < |o.events| && o.events[j + 1] == Resolve(Succeeded))
  {
    var o := Execute(st, action, args, answer, color);
    var e := o.events;
    if |e| == 1 {
      assert Resolutions(e) == [e[0].resolution] + Resolutions(e[1..]);
    } else if |e| == 2 {
      assert Resolutions(e) == Resolutions(e[1..]);
      assert Resolutions(e[1..]) == [e[1].resolution] + Resolutions(e[1..][1..]);
      assert Launches(e) == [e[0].launch] + Launches(e[1..]);
      assert Launches(e[1..]) == Launches(e[1..][1..]);
    } else if |e| == 3 {
      assert Resolutions(e) == [e[0].resolution] + Resolutions(e[1..]);
      assert Resolutions(e[1..]) == Resolutions(e[2..]);
      assert Resolutions(e[2..]) == [e[2].resolution] + Resolutions(e[2..][1..]);
      assert Launches(e) == Launches(e[1..]);
      assert Launches(e[1..]) == [e[1].launch] + Launches(e[2..]);
      assert Launches(e[2..]) == Launches(e[2..][1..]);
    }
  }

  /** One invocation of `execute` with its own callback, as the host delivers it, and
      the answer the package manager would give if asked during it. */
  datatype Call = Call(action: string, args: seq<JsonValue>, answer: ServiceList, color: ToolbarColor)

  datatype Trace = Trace(state: ProbeState, outcomes: seq<Outcome>)

  /** Invocations one after another on one plugin instance. */
  function Run(st: ProbeState, calls: seq<Call>): (t: Trace)
    ensures |t.outcomes| == |calls|
    decreases |calls|
  {
    if calls == [] then Trace(st, [])
    else
      var c := calls[0];
      var o := Execute(st, c.action, c.args, c.answer, c.color);
      var rest := Run(o.state, calls[1..]);
      Trace(rest.state, [o] + rest.outcomes)
  }

  /** Number of platform queries among some outcomes. */
  function Queries(outcomes: seq<Outcome>): nat
    decreases |outcomes|
  {
    if outcomes == [] then 0
    else (if outcomes[0].queried then 1 else 0) + Queries(outcomes[1..])
  }

  /** The package manager answers the probing invocations see, in order. */
  function ProbingAnswers(calls: seq<Call>): seq<ServiceList>
    decreases |calls|
  {
    if calls == [] then []
    else (if Probes(calls[0].action, calls[0].args) then [calls[0].answer] else [])
         + ProbingAnswers(calls[1..])
  }

  /** Every invocation of a run resolves its callback and launches as `ExecuteResolutions`
      says, whatever the invocations before it did to the cache. */
  lemma {:induction false} RunShapes(st: ProbeState, calls: seq<Call>)
    ensures forall i :: 0 <= i < |calls| ==>
              (Resolutions(Run(st, calls).outcomes[i].events) != [] <==>
                 calls[i].action == "isAvailable" || calls[i].action == "openUrl")
    ensures forall i :: 0 <= i < |calls| ==>
              |Resolutions(Run(st, calls).outcomes[i].events)| <= 2 &&
              |Launches(Run(st, calls).outcomes[i].events)| <= 1
    ensures forall i :: 0 <= i < |calls| && |Resolutions(Run(st, calls).outcomes[i].events)| == 2 ==>
              Resolutions(Run(st, calls).outcomes[i].events) == [Failed(NoProvider), Succeeded] &&
              |Launches(Run(st, calls).outcomes[i].events)| == 1
    decreases |calls|
  {
    if calls != [] {
      var c := calls[0];
      var o := Execute(st, c.action, c.args, c.answer, c.color);
      ExecuteResolutions(st, c.action, c.args, c.answer, c.color);
      RunShapes(o.state, calls[1..]);
      var t := Run(st, calls);
      forall i | 0 <= i < |calls|
        ensures t.outcomes[i] == if i == 0 then o else Run(o.state, calls[1..]).outcomes[i - 1]
      {
      }
    }
  }

  /** Once a provider is cached, no invocation queries the platform again, the cache
      stays as it is, and every `isAvailable` reports the cached answer. */
  lemma {:induction false} RunFromCached(st: ProbeState, calls: seq<Call>)
    requires st.findCalled
    ensures Run(st, calls).state == st
    ensures Queries(Run(st, calls).outcomes) == 0
    ensures forall i :: 0 <= i < |calls| && calls[i].action == "isAvailable" ==>
              Run(st, calls).outcomes[i].events == [Resolve(Ok(st.browser.Some?))]
    decreases |calls|
  {
    if calls != [] {
      var c := calls[0];
      var o := Execute(st, c.action, c.args, c.answer, c.color);
      RunFromCached(o.state, calls[1..]);
      var t := Run(st, calls);
      assert t.outcomes[1..] == Run(o.state, calls[1..]).outcomes;
      forall i | 1 <= i < |calls|
        ensures t.outcomes[i] == Run(o.state, calls[1..]).outcomes[i - 1]
      {
      }
    }
  }

  /** The dispatcher's cache behaviour is exactly the probe's, run on the answers of the
      invocations that probe: same final cache, same number of platform queries. */
  lemma {:induction false} RunFollowsProber(st: ProbeState, calls: seq<Call>)
    ensures Run(st, calls).state == ProbeRun(st, ProbingAnswers(calls)).state
    ensures Queries(Run(st, calls).outcomes) == ProbeRun(st, ProbingAnswers(calls)).queries
    decreases |calls|
  {
    if calls != [] {
      var c := calls[0];
      var o := Execute(st, c.action, c.args, c.answer, c.color);
      var t := Run(st, calls);
      assert t.outcomes[1..] == Run(o.state, calls[1..]).outcomes;
      RunFollowsProber(o.state, calls[1..]);
      if Probes(c.action, c.args) {
        assert ProbingAnswers(calls) == [c.answer] + ProbingAnswers(calls[1..]);
        assert ([c.answer] + ProbingAnswers(calls[1..]))[1..] == ProbingAnswers(calls[1..]);
      } else {
        assert ProbingAnswers(calls) == ProbingAnswers(calls[1..]);
      }
    }
  }

  /** On a fresh plugin the platform is queried once per probing invocation up to and
      including the first one whose answer names a provider, and never afterwards. */
  lemma QueryCountFromFresh(calls: seq<Call>)
    ensures var answers := ProbingAnswers(calls);
            var k := FirstHit(answers);
            Queries(Run(Initial, calls).outcomes) == if k < |answers| then k + 1 else |answers|
  {
    RunFollowsProber(Initial, calls);
    ProbeRunFromUncached(Initial, ProbingAnswers(calls));
  }

  /** A plugin that knows a provider package has it cached for good: the invariant the
      object keeps rules out a known package that a later probe could still replace. */
  lemma {:induction false} KnownProviderIsFinal(st: ProbeState, calls: seq<Call>)
    requires Valid(st) && st.browser.Some?
    ensures Run(st, calls).state == st
    ensures Queries(Run(st, calls).outcomes) == 0
  {
    RunFromCached(st, calls);
  }
}
