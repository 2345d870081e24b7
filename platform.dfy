/** Values exchanged between the BrowserTab plugin and its collaborators: the Android
    package manager, the JSON argument array, the Cordova callback and the launched tab. */
module Platform {

  /** A Java reference that may be null. */
  datatype Option<+T> = None | Some(value: T)

  /** The `serviceInfo` of a resolved service; its `packageName` is a Java string and may be null. */
  datatype ServiceInfo = ServiceInfo(packageName: Option<string>)

  /** One entry of the list the package manager returns; its `serviceInfo` may be null. */
  datatype ResolveInfo = ResolveInfo(serviceInfo: Option<ServiceInfo>)

  /** The answer of `queryIntentServices` for the custom-tabs connection intent:
      a null list, or a list whose entries may themselves be null. */
  type ServiceList = Option<seq<Option<ResolveInfo>>>

  /** An element of the JSON argument array, reduced to what `JSONArray.getString`
      makes of it: the string it yields, or None where it throws `JSONException`. */
  datatype JsonValue = JsonValue(asString: Option<string>)

  /** The toolbar colour parsed from the `CUSTOM_TAB_COLOR_RGB` string resource. */
  datatype ToolbarColor = ToolbarColor(argb: int)

  /** One resolution sent to a Cordova `CallbackContext`. */
  datatype Resolution =
    | Ok(flag: bool)          // sendPluginResult(new PluginResult(Status.OK, flag))
    | Failed(message: string) // error(message)
    | Succeeded               // success()

  /** One custom-tab launch request: the URL handed to `launchUrl` and the toolbar colour. */
  datatype Launch = Launch(url: string, color: ToolbarColor)

  /** One observable effect of an invocation, in the order it happens: a resolution
      sent to the callback, or a custom tab launched. */
  datatype Event = Resolve(resolution: Resolution) | Launched(launch: Launch)

  /** The resolutions among some events, in order. */
  function Resolutions(events: seq<Event>): seq<Resolution>
    decreases |events|
  {
    if events == [] then []
    else (if events[0].Resolve? then [events[0].resolution] else []) + Resolutions(events[1..])
  }

  /** The launches among some events, in order. */
  function Launches(events: seq<Event>): seq<Launch>
    decreases |events|
  {
    if events == [] then []
    else (if events[0].Launched? then [events[0].launch] else []) + Launches(events[1..])
  }

  /** Both projections distribute over concatenation, so a log extended by the events
      of one invocation projects to the old projections extended by theirs. */
  lemma {:induction false} ProjectionsAppend(a: seq<Event>, b: seq<Event>)
    ensures Resolutions(a + b) == Resolutions(a) + Resolutions(b)
    ensures Launches(a + b) == Launches(a) + Launches(b)
    decreases |a|
  {
    if a != [] {
      assert (a + b)[1..] == a[1..] + b;
      ProjectionsAppend(a[1..], b);
    } else {
      assert a + b == b;
    }
  }

  /** A launch followed by success adds only that success to the resolutions. */
  lemma ResolutionsLaunchThenSuccess(before: seq<Event>, launch: Launch)
    ensures Resolutions(before + [Launched(launch), Resolve(Succeeded)]) ==
            Resolutions(before) + [Succeeded]
  {
    var tail := [Launched(launch), Resolve(Succeeded)];
    ProjectionsAppend(before, tail);
    assert Resolutions(tail) == Resolutions(tail[1..]);
    assert tail[1..] == [Resolve(Succeeded)];
    assert Resolutions([Resolve(Succeeded)]) == [Succeeded] + Resolutions([]);
  }

  const UrlMissing := "URL argument missing"
  const UrlNotString := "URL argument is not a string"
  const NoProvider := "no in app browser tab implementation available"
}
