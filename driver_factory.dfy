/** `DriverFactory`: picks the platform, assembles the session request,
    opens the session and keeps it in its own per-thread slot. */
module DriverFactory {
  import opened Wrappers
  import opened Errors
  import opened Platforms
  import opened Config
  import opened ThreadLocals
  import opened Capabilities
  import opened Backend

  /** What `URI.create(url).toURL()` makes of the configured Appium URL:
      a usable URL, a MalformedURLException, or an IllegalArgumentException
      (URI syntax errors and relative URIs). */
  datatype UrlVerdict = ValidUrl | MalformedUrlText | IllegalUri(message: string)

  const BAD_URL: string := "Bad Appium server URL"

  /** `System.getProperty("platform", Config.get("platform"))`. */
  function PlatformSetting(src: Sources): (r: Option<string>)
    ensures r == Get(src, "platform")
  {
    if "platform" in src.system then Some(src.system["platform"]) else Get(src, "platform")
  }

  /** The session `createDriver(platform)` asks for, or the exception it
      throws before asking. */
  function Blueprint(p: Platform, src: Sources, parseUrl: string -> UrlVerdict): (r: Result<SessionSpec, Ex>)
    ensures p == MOBILE_WEB <==> r == Failure(IllegalState("Unhandled platform: MOBILE_WEB"))
    ensures p == WEB ==> r == Success(ChromeSession(ChromeOptions()))
    ensures p == ANDROID && parseUrl(Endpoint(src)) == ValidUrl ==>
              r == Success(AndroidSession(AndroidOptions(src), Endpoint(src)))
    ensures p == IOS && parseUrl(Endpoint(src)) == ValidUrl ==>
              r == Success(IOSSession(IOSOptions(src), Endpoint(src)))
    ensures !p.IsBrowser() && parseUrl(Endpoint(src)) == MalformedUrlText ==>
              r == Failure(Runtime(BAD_URL, Some(MalformedUrl)))
    ensures !p.IsBrowser() && parseUrl(Endpoint(src)).IllegalUri? ==>
              r == Failure(IllegalArgument(parseUrl(Endpoint(src)).message))
  {
    match p
    case MOBILE_WEB => Failure(IllegalState("Unhandled platform: MOBILE_WEB"))
    case WEB => Success(ChromeSession(ChromeOptions()))
    case _ =>
      var url := Endpoint(src);
      match parseUrl(url)
      case MalformedUrlText => Failure(Runtime(BAD_URL, Some(MalformedUrl)))
      case IllegalUri(m) => Failure(IllegalArgument(m))
      case ValidUrl =>
        if p == ANDROID then Success(AndroidSession(AndroidOptions(src), url))
        else Success(IOSSession(IOSOptions(src), url))
  }

  /** The calls that open a session: Chrome is maximised right after it
      starts. */
  function SessionCalls(spec: SessionSpec): (r: seq<Call>)
    ensures |r| >= 1 && r[0] == NewSession(spec)
    ensures spec.ChromeSession? <==> Maximize in r
  {
    if spec.ChromeSession? then [NewSession(spec), Maximize] else [NewSession(spec)]
  }

  /** Only the Android and iOS requests go through the Appium URL, so a bad
      URL never stops a WEB session. */
  lemma WebIgnoresUrl(src: Sources, parseUrl: string -> UrlVerdict, other: string -> UrlVerdict)
    ensures Blueprint(WEB, src, parseUrl) == Blueprint(WEB, src, other)
  {
  }

  class DriverFactory {
    /** The static `ThreadLocal<WebDriver> DRIVER`, separate from
        DriverManager's. */
    var slot: ThreadLocal<Handle>

    constructor()
      ensures forall t :: GetDriver(t) == None
    {
      slot := Empty();
    }

    /** `getDriver()` on thread `t`; None is null. */
    function GetDriver(t: ThreadId): (r: Option<Handle>)
      reads this
      ensures r.Some? <==> t in slot.values
    {
      slot.Get(t)
    }

    /** Every handle in the slot names a session opened before `n`. */
    ghost predicate HandlesBelow(n: nat)
      reads this
    {
      forall u :: GetDriver(u).Some? ==> GetDriver(u).value < n
    }

    /** `createDriver(platform)` on thread `t`. The new session is stored
        only once it is fully set up; a session already in the slot is
        overwritten without being quit. Each stored session is new, so no
        two threads ever share one. */
    method CreateDriverFor(remote: Remote, t: ThreadId, p: Platform, src: Sources,
                           parseUrl: string -> UrlVerdict) returns (r: Outcome<Ex>)
      requires HandlesBelow(remote.sessions)
      modifies this, remote
      ensures HandlesBelow(remote.sessions)
      ensures Blueprint(p, src, parseUrl).Failure? ==>
                r == Fail(Blueprint(p, src, parseUrl).error)
                && slot == old(slot) && remote.events == old(remote.events)
                && remote.sessions == old(remote.sessions)
      ensures Blueprint(p, src, parseUrl).Success? ==>
                var started := Run(remote.answer, Some(old(remote.sessions)),
                                  SessionCalls(Blueprint(p, src, parseUrl).value));
                remote.sessions == old(remote.sessions) + 1
                && remote.events == old(remote.events) + started.events
                && r == Propagate(started.error)
      ensures r.Pass? ==> GetDriver(t) == Some(old(remote.sessions))
      ensures r.Pass? ==> forall u :: u != t && GetDriver(u).Some? ==> GetDriver(u) != GetDriver(t)
      ensures r.Fail? ==> slot == old(slot)
      ensures forall u :: u != t ==> GetDriver(u) == old(GetDriver(u))
    {
      var blueprint := Blueprint(p, src, parseUrl);
      if blueprint.Failure? {
        return Fail(blueprint.error);
      }
      var spec := blueprint.value;
      ghost var before := slot;
      forall u | before.Get(u).Some?
        ensures before.Get(u).value < remote.sessions
      {
        assert GetDriver(u) == before.Get(u);
      }
      var h := remote.Allocate();
      var err: Option<Ex>;
      if spec.ChromeSession? {
        err := remote.Try2(Some(h), NewSession(spec), Maximize);
      } else {
        err := remote.Try1(Some(h), NewSession(spec));
      }
      r := Propagate(err);
      if err.None? {
        slot := slot.Set(t, h);
        forall u | u != t && GetDriver(u).Some?
          ensures GetDriver(u) != GetDriver(t)
        {
          assert GetDriver(u) == before.Get(u);
        }
      }
    }

    /** `createDriver()`: the platform named by the system property, else by
        config.properties, parsed with `Platform.fromString`. */
    method CreateDriver(remote: Remote, t: ThreadId, src: Sources,
                        parseUrl: string -> UrlVerdict) returns (r: Outcome<Ex>)
      requires HandlesBelow(remote.sessions)
      modifies this, remote
      ensures HandlesBelow(remote.sessions)
      ensures FromString(Get(src, "platform")).Failure? ==>
                r == Fail(FromString(Get(src, "platform")).error)
                && slot == old(slot) && remote.events == old(remote.events)
                && remote.sessions == old(remote.sessions)
      ensures FromString(Get(src, "platform")).Success? ==>
                var blueprint := Blueprint(FromString(Get(src, "platform")).value, src, parseUrl);
                (blueprint.Failure? ==>
                   r == Fail(blueprint.error) && slot == old(slot)
                   && remote.events == old(remote.events) && remote.sessions == old(remote.sessions))
                && (blueprint.Success? ==>
                      var started := Run(remote.answer, Some(old(remote.sessions)), SessionCalls(blueprint.value));
                      remote.sessions == old(remote.sessions) + 1
                      && remote.events == old(remote.events) + started.events
                      && r == Propagate(started.error))
      ensures r.Pass? ==> FromString(Get(src, "platform")).Success?
                          && Blueprint(FromString(Get(src, "platform")).value, src, parseUrl).Success?
                          && GetDriver(t) == Some(old(remote.sessions))
      ensures r.Fail? ==> slot == old(slot)
      ensures forall u :: u != t ==> GetDriver(u) == old(GetDriver(u))
    {
      var platform := FromString(PlatformSetting(src));
      if platform.Failure? {
        return Fail(platform.error);
      }
      r := CreateDriverFor(remote, t, platform.value, src, parseUrl);
    }

    /** `quitDriver()` on thread `t`: as DriverManager's, on this slot. */
    method QuitDriver(remote: Remote, t: ThreadId) returns (r: Outcome<Ex>)
      modifies this, remote`events
      ensures old(GetDriver(t)).None? ==>
                r == Pass && slot == old(slot) && remote.events == old(remote.events)
      ensures old(GetDriver(t)).Some? ==>
                remote.events == old(remote.events) + [Event(old(GetDriver(t)).value, Quit)]
                && r == Propagate(Fault(remote.answer, old(GetDriver(t)).value, Quit))
      ensures r.Pass? ==> GetDriver(t) == None
      ensures r.Fail? ==> slot == old(slot)
      ensures forall u :: u != t ==> GetDriver(u) == old(GetDriver(u))
    {
      var current := slot.Get(t);
      if current.None? {
        return Pass;
      }
      var err := remote.Perform(current.value, Quit);
      r := Propagate(err);
      if err.None? {
        slot := slot.Remove(t);
      }
    }
  }
}
