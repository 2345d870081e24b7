/** The capability probe `findCustomTabBrowser` as a function of the two cache fields
    and the package manager's answer, and what a sequence of probes does. */
module Prober {
  import opened Platform

  /** The fields `mFindCalled` and `mCustomTabsBrowser`. */
  datatype ProbeState = ProbeState(findCalled: bool, browser: Option<string>)

  /** A freshly constructed plugin: nothing found, nothing cached. */
  const Initial := ProbeState(false, None)

  /** The cache fields are only ever written together, so nothing is cached before a find. */
  predicate Valid(st: ProbeState) {
    !st.findCalled ==> st.browser == None
  }

  /** What one platform answer lets the probe record: None when the answer is unusable
      (a null or empty list, a null first entry, a null `serviceInfo`), otherwise the
      package name of the first entry, which may itself be null. */
  function Resolved(answer: ServiceList): Option<Option<string>> {
    match answer
    case None => None
    case Some(entries) =>
      if |entries| == 0 then None
      else match entries[0]
        case None => None
        case Some(info) =>
          match info.serviceInfo
          case None => None
          case Some(service) => Some(service.packageName)
  }

  predicate Usable(answer: ServiceList) {
    Resolved(answer).Some?
  }

  /** Later entries of the list never matter: only entry 0 is looked at. */
  lemma ResolvedIgnoresLaterEntries(first: Option<ResolveInfo>, rest: seq<Option<ResolveInfo>>)
    ensures Resolved(Some([first] + rest)) == Resolved(Some([first]))
    ensures first.Some? && first.value.serviceInfo.Some? ==>
              Resolved(Some([first] + rest)) == Some(first.value.serviceInfo.value.packageName)
  {
  }

  /** One probe: the new cache, the returned package (null as None), and whether
      the platform was queried. */
  datatype ProbeStep = ProbeStep(state: ProbeState, result: Option<string>, queried: bool)

  function Probe(st: ProbeState, answer: ServiceList): (r: ProbeStep)
    // the platform is asked exactly when nothing is cached yet
    ensures r.queried <==> !st.findCalled
    // once found, the cache never changes and is what every probe returns
    ensures st.findCalled ==> r.state == st && r.result == st.browser
    // a found result is cached, and only a usable answer makes the probe find one
    ensures r.state.findCalled <==> st.findCalled || Usable(answer)
    ensures r.state.findCalled ==> r.result == r.state.browser
    ensures !st.findCalled && Usable(answer) ==> r.result == Resolved(answer).value
    // a miss returns null and leaves the cache untouched, so the next probe asks again
    ensures !r.state.findCalled ==> r.state == st && r.result == None
    ensures Valid(st) ==> Valid(r.state)
  {
    if st.findCalled then ProbeStep(st, st.browser, false)
    else match Resolved(answer)
      case None => ProbeStep(st, None, true)
      case Some(name) => ProbeStep(ProbeState(true, name), name, true)
  }

  /** A miss is never cached: after an unusable answer the next probe queries again. */
  lemma MissIsRetried(st: ProbeState, first: ServiceList, second: ServiceList)
    requires !st.findCalled && !Usable(first)
    ensures Probe(st, first).result == None
    ensures Probe(Probe(st, first).state, second).queried
    ensures Probe(Probe(st, first).state, second) == Probe(st, second)
  {
  }

  /** Probes in a row, each against the answer the platform would give at that time. */
  datatype ProbeTrace = ProbeTrace(state: ProbeState, results: seq<Option<string>>, queries: nat)

  function ProbeRun(st: ProbeState, answers: seq<ServiceList>): (t: ProbeTrace)
    ensures |t.results| == |answers|
    ensures t.queries <= |answers|
    decreases |answers|
  {
    if answers == [] then ProbeTrace(st, [], 0)
    else
      var step := Probe(st, answers[0]);
      var rest := ProbeRun(step.state, answers[1..]);
      ProbeTrace(rest.state, [step.result] + rest.results,
                 rest.queries + if step.queried then 1 else 0)
  }

  /** Index of the first usable answer, or the number of answers when there is none. */
  function FirstHit(answers: seq<ServiceList>): (k: nat)
    ensures k <= |answers|
    ensures forall i :: 0 <= i < k ==> !Usable(answers[i])
    ensures k < |answers| ==> Usable(answers[k])
    decreases |answers|
  {
    if answers == [] then 0
    else if Usable(answers[0]) then 0
    else 1 + FirstHit(answers[1..])
  }

  /** From a cached state, however the platform would answer: no query, same cache,
      the cached package every time. */
  lemma {:induction false} ProbeRunFromCached(st: ProbeState, answers: seq<ServiceList>)
    requires st.findCalled
    ensures ProbeRun(st, answers).queries == 0
    ensures ProbeRun(st, answers).state == st
    ensures forall i :: 0 <= i < |answers| ==> ProbeRun(st, answers).results[i] == st.browser
    decreases |answers|
  {
    if answers != [] {
      ProbeRunFromCached(st, answers[1..]);
    }
  }

  /** From an uncached state: the platform is queried for every answer up to and
      including the first usable one and never after; every probe before it returns
      null; from it on, every probe returns the package name of that answer's first entry. */
  lemma {:induction false} ProbeRunFromUncached(st: ProbeState, answers: seq<ServiceList>)
    requires !st.findCalled
    ensures var k := FirstHit(answers);
            ProbeRun(st, answers).queries == if k < |answers| then k + 1 else |answers|
    ensures forall i :: 0 <= i < FirstHit(answers) ==> ProbeRun(st, answers).results[i] == None
    ensures var k := FirstHit(answers);
            k < |answers| ==>
              ProbeRun(st, answers).state == ProbeState(true, Resolved(answers[k]).value) &&
              forall i :: k <= i < |answers| ==>
                ProbeRun(st, answers).results[i] == Resolved(answers[k]).value
    ensures FirstHit(answers) == |answers| ==> ProbeRun(st, answers).state == st
    decreases |answers|
  {
    if answers != [] {
      var step := Probe(st, answers[0]);
      var t := ProbeRun(st, answers);
      var rest := ProbeRun(step.state, answers[1..]);
      assert t.results == [step.result] + rest.results;
      if Usable(answers[0]) {
        ProbeRunFromCached(step.state, answers[1..]);
        forall i | 0 <= i < |answers|
          ensures t.results[i] == Resolved(answers[0]).value
        {
          if i > 0 { assert t.results[i] == rest.results[i - 1]; }
        }
      } else {
        ProbeRunFromUncached(st, answers[1..]);
        var k := FirstHit(answers[1..]);
        assert FirstHit(answers) == k + 1;
        forall i | 0 <= i < k + 1
          ensures t.results[i] == None
        {
          if i > 0 { assert t.results[i] == rest.results[i - 1]; }
        }
        if k < |answers[1..]| {
          assert answers[1..][k] == answers[k + 1];
          forall i | k + 1 <= i < |answers|
            ensures t.results[i] == Resolved(answers[k + 1]).value
          {
            assert t.results[i] == rest.results[i - 1];
          }
        }
      }
    }
  }
}
