/** `BasePage`: the platform-dependent choice among a web, an Android and an
    iOS locator, and the wrapped enter-text and click helpers. */
module BasePage {
  import opened Wrappers
  import opened Errors
  import opened Text
  import opened Config
  import opened Locators
  import opened ThreadLocals
  import opened Backend
  import opened DriverManager

  /** `Config.get("platform", "WEB").toUpperCase()`: upper-cased but not
      trimmed, and never parsed with `Platform.fromString`. */
  function Setting(src: Sources): (r: string)
    ensures Get(src, "platform").None? ==> r == "WEB"
    ensures |r| == |GetOr(src, "platform", "WEB")|
    ensures forall i :: 0 <= i < |r| ==> r[i] == UpperChar(GetOr(src, "platform", "WEB")[i])
    ensures forall i :: 0 <= i < |r| ==> !IsAsciiLower(r[i])
  {
    var raw := GetOr(src, "platform", "WEB");
    if raw == "WEB" then UpperFixed(raw); Upper(raw) else Upper(raw)
  }

  /** `getLocatorForPlatform`: on ANDROID and IOS the platform's own locator
      when it is not null, and in every other case, unknown settings
      included, the web locator. None is a null locator. */
  function LocatorForPlatform(setting: string, web: Option<By>, android: Option<By>, ios: Option<By>): (r: Option<By>)
    ensures setting == "ANDROID" && android.Some? ==> r == android
    ensures setting == "IOS" && ios.Some? ==> r == ios
    ensures setting == "ANDROID" && android.None? ==> r == web
    ensures setting == "IOS" && ios.None? ==> r == web
    ensures setting != "ANDROID" && setting != "IOS" ==> r == web
  {
    match setting
    case "ANDROID" => if android.Some? then android else web
    case "IOS" => if ios.Some? then ios else web
    case _ => web
  }

  /** A setting written in any case, such as "android" or "Ios", selects
      that platform's locator (or the web one when it is null). */
  lemma SettingIgnoresCase(src: Sources, web: Option<By>, android: Option<By>, ios: Option<By>)
    requires Get(src, "platform").Some?
    ensures Upper(Get(src, "platform").value) == "ANDROID" ==>
              LocatorForPlatform(Setting(src), web, android, ios) == (if android.Some? then android else web)
    ensures Upper(Get(src, "platform").value) == "IOS" ==>
              LocatorForPlatform(Setting(src), web, android, ios) == (if ios.Some? then ios else web)
  {
    assert Setting(src) == Upper(Get(src, "platform").value);
  }

  /** A padded setting such as " android" matches no case and falls back to
      the web locator, since the setting is not trimmed. */
  lemma {:induction false} PaddedSettingUsesWeb(src: Sources, web: Option<By>, android: Option<By>, ios: Option<By>)
    requires Get(src, "platform").Some? && |Get(src, "platform").value| > 0
    requires IsJavaSpace(Get(src, "platform").value[0])
    ensures LocatorForPlatform(Setting(src), web, android, ios) == web
  {
    var raw := Get(src, "platform").value;
    var s := Setting(src);
    assert s[0] == raw[0];
    assert "ANDROID"[0] == 'A' && "IOS"[0] == 'I';
  }

  /** The message of the exception `enterText` throws. */
  function EnterTextFailure(elementName: string): string {
    "Failed to enter text in '" + elementName + "'"
  }

  /** The message of the exception `clickElement` throws. */
  function ClickFailure(elementName: string): string {
    "Failed to click on '" + elementName + "'"
  }

  /** Both failure messages name the element. */
  lemma {:induction false} FailuresNameElement(elementName: string)
    ensures Contains(EnterTextFailure(elementName), elementName)
    ensures Contains(ClickFailure(elementName), elementName)
  {
    ContainsSelf(elementName);
    ContainsInfix("Failed to enter text in '", elementName, "'", elementName);
    ContainsInfix("Failed to click on '", elementName, "'", elementName);
  }

  /** What `RemoteWebDriver.findElement` throws for a null locator, before
      it sends anything to the browser or device. */
  const NULL_LOCATOR: string := "Locator must be set"

  /** The exception `getDriver().findElement(null)` raises: dereferencing a
      null driver, or the driver's own argument check. */
  function NullLocatorError(driver: Option<Handle>): (e: Ex)
    ensures driver.None? <==> e == NullPointer
    ensures driver.Some? ==> e == IllegalArgument(NULL_LOCATOR)
  {
    if driver.None? then NullPointer else IllegalArgument(NULL_LOCATOR)
  }

  /** The driver calls made on `locator`; a null locator fails before any
      call. */
  function OnLocator(answer: Answer, driver: Option<Handle>, locator: Option<By>, calls: By -> seq<Call>): (t: Trace)
    ensures locator.None? && driver.None? ==> t == Trace([], Some(NullPointer))
    ensures locator.None? && driver.Some? ==> t == Trace([], Some(IllegalArgument(NULL_LOCATOR)))
    ensures locator.Some? ==> t == Run(answer, driver, calls(locator.value))
  {
    if locator.None? then Trace([], Some(NullLocatorError(driver))) else Run(answer, driver, calls(locator.value))
  }

  function EnterTextCalls(text: string): By -> seq<Call> {
    loc => [Find(loc), Clear(loc), SendKeys(loc, text)]
  }

  function ClickCalls(): By -> seq<Call> {
    loc => [Find(loc), Click(loc)]
  }

  /** `enterText` on thread `t`: locates the element on the thread's
      DriverManager driver, clears it, types `text`; any failure is
      rethrown as a RuntimeException naming the element. */
  method EnterText(remote: Remote, manager: DriverManager, t: ThreadId, src: Sources,
                   web: Option<By>, android: Option<By>, ios: Option<By>,
                   text: string, elementName: string) returns (r: Outcome<Ex>)
    modifies remote`events
    ensures var trace := OnLocator(remote.answer, manager.GetDriver(t),
                                   LocatorForPlatform(Setting(src), web, android, ios), EnterTextCalls(text));
            remote.events == old(remote.events) + trace.events
            && r == WrapAs(EnterTextFailure(elementName), trace.error)
  {
    var locator := LocatorForPlatform(Setting(src), web, android, ios);
    var err: Option<Ex>;
    if locator.None? {
      err := Some(NullLocatorError(manager.GetDriver(t)));
    } else {
      var loc := locator.value;
      err := remote.Try3(manager.GetDriver(t), Find(loc), Clear(loc), SendKeys(loc, text));
    }
    r := WrapAs(EnterTextFailure(elementName), err);
  }

  /** `clickElement` on thread `t`: locates the element and clicks it; any
      failure is rethrown as a RuntimeException naming the element. */
  method ClickElement(remote: Remote, manager: DriverManager, t: ThreadId, src: Sources,
                      web: Option<By>, android: Option<By>, ios: Option<By>,
                      elementName: string) returns (r: Outcome<Ex>)
    modifies remote`events
    ensures var trace := OnLocator(remote.answer, manager.GetDriver(t),
                                   LocatorForPlatform(Setting(src), web, android, ios), ClickCalls());
            remote.events == old(remote.events) + trace.events
            && r == WrapAs(ClickFailure(elementName), trace.error)
  {
    var locator := LocatorForPlatform(Setting(src), web, android, ios);
    var err: Option<Ex>;
    if locator.None? {
      err := Some(NullLocatorError(manager.GetDriver(t)));
    } else {
      var loc := locator.value;
      err := remote.Try2(manager.GetDriver(t), Find(loc), Click(loc));
    }
    r := WrapAs(ClickFailure(elementName), err);
  }
}
