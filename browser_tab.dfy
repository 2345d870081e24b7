/** The plugin object itself: the class `BrowserTab` with its two cache fields, and the
    Cordova `CallbackContext` each invocation resolves. Every method is tied to the
    function in Prober or Dispatcher that specifies it. */
module BrowserTabPlugin {
  import opened Platform
  import opened Prober
  import Dispatcher

  /** A Cordova callback, seen as the log of the resolutions it has been sent. */
  class CallbackContext {
    var resolutions: seq<Resolution>

    constructor ()
      ensures resolutions == []
    {
      resolutions := [];
    }

    method SendPluginResult(flag: bool)
      modifies this
      ensures resolutions == old(resolutions) + [Ok(flag)]
    {
      resolutions := resolutions + [Ok(flag)];
    }

    method Error(message: string)
      modifies this
      ensures resolutions == old(resolutions) + [Failed(message)]
    {
      resolutions := resolutions + [Failed(message)];
    }

    method Success()
      modifies this
      ensures resolutions == old(resolutions) + [Succeeded]
    {
      resolutions := resolutions + [Succeeded];
    }
  }

  class BrowserTab {
    var findCalled: bool
    var customTabsBrowser: Option<string>
    /** Platform queries issued so far. */
    var queries: nat
    /** Everything the plugin has done that is seen outside it, in order: the
        resolutions it sent to callbacks and the custom tabs it launched. */
    var events: seq<Event>

    function State(): ProbeState
      reads this
    {
      ProbeState(findCalled, customTabsBrowser)
    }

    ghost predicate Valid()
      reads this
    {
      Prober.Valid(State())
    }

    constructor ()
      ensures Valid() && State() == Initial
      ensures queries == 0 && events == []
    {
      findCalled := false;
      customTabsBrowser := None;
      queries := 0;
      events := [];
    }

    /** `answer` is what the package manager would return if queried now. */
    method FindCustomTabBrowser(answer: ServiceList) returns (browser: Option<string>)
      requires Valid()
      modifies this
      ensures Valid()
      ensures browser == Probe(old(State()), answer).result
      ensures State() == Probe(old(State()), answer).state
      ensures queries == old(queries) + if old(findCalled) then 0 else 1
      ensures events == old(events)
    {
      if findCalled {
        return customTabsBrowser;
      }

      queries := queries + 1;
      var resolvedServiceList := answer;
      if resolvedServiceList.None? || |resolvedServiceList.value| == 0 {
        return None;
      }

      var resolved := resolvedServiceList.value[0];
      if resolved.None? || resolved.value.serviceInfo.None? {
        return None;
      }

      customTabsBrowser := resolved.value.serviceInfo.value.packageName;
      findCalled := true;
      return customTabsBrowser;
    }

    method IsAvailable(answer: ServiceList, callbackContext: CallbackContext)
      requires Valid()
      modifies this, callbackContext
      ensures Valid()
      ensures var o := Dispatcher.IsAvailable(old(State()), answer);
              State() == o.state &&
              events == old(events) + o.events &&
              callbackContext.resolutions == old(callbackContext.resolutions) + Resolutions(o.events) &&
              queries == old(queries) + if o.queried then 1 else 0
    {
      var browserPackage := FindCustomTabBrowser(answer);
      callbackContext.SendPluginResult(browserPackage.Some?);
      events := events + [Resolve(Ok(browserPackage.Some?))];
    }

    method OpenUrl(args: seq<JsonValue>, answer: ServiceList, color: ToolbarColor,
                   callbackContext: CallbackContext)
      requires Valid()
      modifies this, callbackContext
      ensures Valid()
      ensures var o := Dispatcher.OpenUrl(old(State()), args, answer, color);
              State() == o.state &&
              events == old(events) + o.events &&
              callbackContext.resolutions == old(callbackContext.resolutions) + Resolutions(o.events) &&
              queries == old(queries) + if o.queried then 1 else 0
    {
      if |args| < 1 {
        callbackContext.Error(UrlMissing);
        events := events + [Resolve(Failed(UrlMissing))];
        return;
      }

      if args[0].asString.None? {
        callbackContext.Error(UrlNotString);
        events := events + [Resolve(Failed(UrlNotString))];
        return;
      }
      var urlStr := args[0].asString.value;

      var customTabsBrowser := FindCustomTabBrowser(answer);
      if customTabsBrowser.None? {
        callbackContext.Error(NoProvider);
        events := events + [Resolve(Failed(NoProvider))];
      }

      events := events + [Launched(Launch(urlStr, color))];
      callbackContext.Success();
      events := events + [Resolve(Succeeded)];
      ResolutionsLaunchThenSuccess(
        if customTabsBrowser.None? then [Resolve(Failed(NoProvider))] else [], Launch(urlStr, color));
    }

    method Execute(action: string, args: seq<JsonValue>, answer: ServiceList,
                   color: ToolbarColor, callbackContext: CallbackContext)
      returns (handled: bool)
      requires Valid()
      modifies this, callbackContext
      ensures Valid()
      ensures var o := Dispatcher.Execute(old(State()), action, args, answer, color);
              handled == o.handled &&
              State() == o.state &&
              events == old(events) + o.events &&
              callbackContext.resolutions == old(callbackContext.resolutions) + Resolutions(o.events) &&
              queries == old(queries) + if o.queried then 1 else 0
    {
      if action == "isAvailable" {
        IsAvailable(answer, callbackContext);
      } else if action == "openUrl" {
        OpenUrl(args, answer, color, callbackContext);
      } else if action == "close" {
        // close does nothing on Android
        return true;
      } else {
        return false;
      }

      return true;
    }
  }

  /** A fresh plugin asked `isAvailable` twice: once the first answer names a provider,
      the second call reports the same availability without querying the platform,
      whatever the platform would answer then. */
  method AvailabilityIsCached(first: ServiceList, second: ServiceList)
    returns (firstReport: seq<Resolution>, secondReport: seq<Resolution>, queries: nat)
    requires Usable(first)
    ensures firstReport == secondReport == [Ok(Resolved(first).value.Some?)]
    ensures queries == 1
  {
    var plugin := new BrowserTab();
    var cb1 := new CallbackContext();
    var handled := plugin.Execute("isAvailable", [], first, ToolbarColor(0), cb1);
    var cb2 := new CallbackContext();
    handled := plugin.Execute("isAvailable", [], second, ToolbarColor(0), cb2);
    firstReport, secondReport, queries := cb1.resolutions, cb2.resolutions, plugin.queries;
  }

  /** A fresh plugin whose first probe gets an unusable answer: that `isAvailable`
      reports false, nothing is cached, and the next `isAvailable` queries again. */
  method MissIsRequeried(first: ServiceList, second: ServiceList)
    returns (firstReport: seq<Resolution>, secondReport: seq<Resolution>, queries: nat)
    requires !Usable(first)
    ensures firstReport == [Ok(false)]
    ensures secondReport == [Ok(Usable(second) && Resolved(second).value.Some?)]
    ensures queries == 2
  {
    var plugin := new BrowserTab();
    var cb1 := new CallbackContext();
    var handled := plugin.Execute("isAvailable", [], first, ToolbarColor(0), cb1);
    var cb2 := new CallbackContext();
    handled := plugin.Execute("isAvailable", [], second, ToolbarColor(0), cb2);
    firstReport, secondReport, queries := cb1.resolutions, cb2.resolutions, plugin.queries;
  }

  /** `close` and an unknown action on a fresh plugin: the first is handled and
      the second is not, and neither resolves its callback, launches or probes. */
  method CloseAndUnknownAreInert(args: seq<JsonValue>, answer: ServiceList, action: string)
    returns (closeHandled: bool, otherHandled: bool, resolutions: seq<Resolution>,
             events: seq<Event>, queries: nat)
    requires action != "isAvailable" && action != "openUrl" && action != "close"
    ensures closeHandled && !otherHandled
    ensures resolutions == [] && events == [] && queries == 0
  {
    var plugin := new BrowserTab();
    var cb := new CallbackContext();
    closeHandled := plugin.Execute("close", args, answer, ToolbarColor(0), cb);
    otherHandled := plugin.Execute(action, args, answer, ToolbarColor(0), cb);
    resolutions, events, queries := cb.resolutions, plugin.events, plugin.queries;
  }
}
