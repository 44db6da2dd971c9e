/** `JavaScriptUtils`: script execution and the JS-or-native click, gated on
    the platform read once when the class is loaded. */
module JavaScriptUtils {
  import opened Wrappers
  import opened Errors
  import opened Text
  import opened Platforms
  import opened Config
  import opened Locators
  import opened ThreadLocals
  import opened Backend
  import opened DriverFactory

  /** The script that clicks its first argument. */
  const DEFAULT_CLICK: string := "arguments[0].click();"

  const JS_QUERY_FAILED: string := "Flutter placeholder not clicked. JS Query failed."
  const JS_CLICK_FAILED: string := "Unable to click element using JS"
  const CUSTOM_JS_FAILED: string := "JS execution failed"

  /** What `jsClick` sends: the element is always looked up first; then on
      WEB the configured `js.Query` runs in place of a click (or the default
      click script on the element when the query is null or empty), and on
      every other platform, MOBILE_WEB included, the element is clicked
      natively. */
  function JsClickCalls(platform: Platform, query: Option<string>, loc: By): (r: seq<Call>)
    ensures |r| == 2 && r[0] == Find(loc)
    ensures platform == WEB && (query.None? || query.value == []) ==>
              r[1] == Script(Some(DEFAULT_CLICK), Some(loc))
    ensures platform == WEB && query.Some? && query.value != [] ==> r[1] == Script(query, None)
    ensures platform != WEB ==> r[1] == Click(loc)
  {
    if platform == WEB then
      if query.None? || query.value == [] then [Find(loc), Script(Some(DEFAULT_CLICK), Some(loc))]
      else [Find(loc), Script(query, None)]
    else [Find(loc), Click(loc)]
  }

  /** The only platform on which `jsClick` runs a script is WEB. */
  lemma {:induction false} ScriptOnlyOnWeb(platform: Platform, query: Option<string>, loc: By)
    ensures (exists i :: 0 <= i < 2 && JsClickCalls(platform, query, loc)[i].Script?) <==> platform == WEB
  {
    var r := JsClickCalls(platform, query, loc);
    if platform == WEB {
      assert r[1].Script?;
    } else {
      assert !r[0].Script? && !r[1].Script?;
    }
  }

  /** The message of the exception `jsClick` throws. */
  function JsClickFailure(loc: By, e: Ex): string {
    "❌ JS/native click failed for locator: " + Describe(loc) + " → " + MessageOf(e)
  }

  /** A failed `jsClick` names the locator in its message. */
  lemma {:induction false} JsClickFailureNamesLocator(loc: By, e: Ex)
    ensures Contains(JsClickFailure(loc, e), loc.Selector())
  {
    DescribeNamesSelector(loc);
    var a := "❌ JS/native click failed for locator: ";
    var c := " → " + MessageOf(e);
    ContainsInfix(a, Describe(loc), c, loc.Selector());
    assert JsClickFailure(loc, e) == a + Describe(loc) + c;
  }

  /** The class's static state: the driver and the platform, both captured
      once at class load and never read again. */
  class JavaScriptUtils {
    const driver: Option<Handle>
    const platform: Platform

    constructor(driver: Option<Handle>, platform: Platform)
      ensures this.driver == driver && this.platform == platform
    {
      this.driver := driver;
      this.platform := platform;
    }

    /** The `jsClick` outcome: a failure anywhere is rethrown as a
        RuntimeException naming the locator, with the original as its cause. */
    method JsClick(remote: Remote, src: Sources, loc: By) returns (r: Outcome<Ex>)
      modifies remote`events
      ensures var trace := Run(remote.answer, driver, JsClickCalls(platform, Get(src, "js.Query"), loc));
              remote.events == old(remote.events) + trace.events
              && (r.Pass? <==> trace.error.None?)
              && (r.Fail? ==> r.error == Runtime(JsClickFailure(loc, trace.error.value), trace.error))
    {
      var calls := JsClickCalls(platform, Get(src, "js.Query"), loc);
      var err := remote.Try2(driver, calls[0], calls[1]);
      assert calls == [calls[0], calls[1]];
      match err
      case None => r := Pass;
      case Some(e) => r := Fail(Runtime(JsClickFailure(loc, e), err));
    }

    /** `executeJs()`: on WEB runs the configured `js.Query` (null when not
        set), wrapping a failure; elsewhere does nothing. */
    method ExecuteJs(remote: Remote, src: Sources) returns (r: Outcome<Ex>)
      modifies remote`events
      ensures platform != WEB ==> r == Pass && remote.events == old(remote.events)
      ensures platform == WEB ==>
                var trace := Run(remote.answer, driver, [Script(Get(src, "js.Query"), None)]);
                remote.events == old(remote.events) + trace.events
                && r == WrapAs(JS_QUERY_FAILED, trace.error)
    {
      if platform != WEB {
        return Pass;
      }
      var err := remote.Try1(driver, Script(Get(src, "js.Query"), None));
      r := WrapAs(JS_QUERY_FAILED, err);
    }

    /** `clickElementWithJS(element)`: on WEB runs the default click script
        on the element, wrapping a failure; elsewhere does nothing. The
        element is the one `target` located. */
    method ClickElementWithJS(remote: Remote, target: By) returns (r: Outcome<Ex>)
      modifies remote`events
      ensures platform != WEB ==> r == Pass && remote.events == old(remote.events)
      ensures platform == WEB ==>
                var trace := Run(remote.answer, driver, [Script(Some(DEFAULT_CLICK), Some(target))]);
                remote.events == old(remote.events) + trace.events
                && r == WrapAs(JS_CLICK_FAILED, trace.error)
    {
      if platform != WEB {
        return Pass;
      }
      var err := remote.Try1(driver, Script(Some(DEFAULT_CLICK), Some(target)));
      r := WrapAs(JS_CLICK_FAILED, err);
    }

    /** `executeCustomJs(script)`: on WEB the script's result, a failure
        wrapped; elsewhere null without running anything. */
    method ExecuteCustomJs(remote: Remote, script: Option<string>) returns (r: Result<Option<string>, Ex>)
      modifies remote`events
      ensures platform != WEB ==> r == Success(None) && remote.events == old(remote.events)
      ensures platform == WEB ==>
                var trace := Run(remote.answer, driver, [Script(script, None)]);
                remote.events == old(remote.events) + trace.events
                && (r.Success? <==> trace.error.None?)
                && (r.Success? ==> r.value == remote.scriptValue(driver.value, script))
                && (r.Failure? ==> r.error == Runtime(CUSTOM_JS_FAILED, trace.error))
    {
      if platform != WEB {
        return Success(None);
      }
      var err := remote.Try1(driver, Script(script, None));
      if err.Some? {
        r := Failure(Runtime(CUSTOM_JS_FAILED, err));
      } else {
        r := Success(remote.scriptValue(driver.value, script));
      }
    }
  }

  /** Class initialisation on thread `t`: the driver is whatever the
      DriverFactory slot holds at that moment (possibly null), the platform
      is `-Dplatform` (default WEB); an invalid platform fails the load. */
  method Load(factory: DriverFactory, t: ThreadId, system: Table) returns (r: Result<JavaScriptUtils, Ex>)
    ensures r.Failure? <==> FromSystemProperty(system).Failure?
    ensures r.Failure? ==> r.error == FromSystemProperty(system).error
    ensures r.Success? ==> fresh(r.value) && r.value.driver == factory.GetDriver(t)
                           && Success(r.value.platform) == FromSystemProperty(system)
  {
    var platform := FromSystemProperty(system);
    if platform.Failure? {
      return Failure(platform.error);
    }
    var jsu := new JavaScriptUtils(factory.GetDriver(t), platform.value);
    r := Success(jsu);
  }
}
