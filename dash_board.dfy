/** The `DashBoard` page: navigation and screen locators, the WEB-only
    configured script, and helpers that never throw. */
module DashBoard {
  import opened Wrappers
  import opened Errors
  import opened Text
  import opened Platforms
  import opened Config
  import opened Locators
  import opened ThreadLocals
  import opened Backend
  import opened DriverFactory
  import opened JavaScriptUtils

  /** The two spellings of an xpath that selects on a semantics identifier. */
  const ID_PREFIX_SINGLE: string := "//flt-semantics[@flt-semantics-identifier='"
  const ID_SUFFIX_SINGLE: string := "']"
  const ID_PREFIX_DOUBLE: string := "//flt-semantics[@flt-semantics-identifier=\""
  const ID_SUFFIX_DOUBLE: string := "\"]"

  /** The elements the page's locator getters name. */
  datatype Element =
    | AppTourScreen | NextButton | SkipButton
    | PendingAction | PendingActionPage
    | ReceivedPayment | ReceivedPaymentPage
    | RequestedPayment | RequestedPaymentPage
    | PaymentLink | PaymentLinkPage

  /** The web and native locator of each element. */
  function Pair(e: Element): LocatorPair {
    match e
    case AppTourScreen =>
      LocatorPair(XPath(ID_PREFIX_SINGLE + "btn_next_app_guide" + ID_SUFFIX_SINGLE), FlutterKey("btn_next_app_guide"))
    case NextButton =>
      LocatorPair(XPath("//span[text()='Next'] | //*[text()='Next']"), FlutterKey("next_button"))
    case SkipButton =>
      LocatorPair(XPath("//span[contains(text(),'Skip')]/.."), FlutterKey("skip_button"))
    case PendingAction =>
      LocatorPair(XPath(ID_PREFIX_SINGLE + "navitem-pending_actions" + ID_SUFFIX_SINGLE),
                  FlutterKey("navitem-pending_actions"))
    case PendingActionPage =>
      LocatorPair(XPath(ID_PREFIX_DOUBLE + "screen_pendingaction_list" + ID_SUFFIX_DOUBLE),
                  FlutterKey("screen_pendingaction_list"))
    case ReceivedPayment =>
      LocatorPair(XPath(ID_PREFIX_SINGLE + "navitem-received_payments" + ID_SUFFIX_SINGLE),
                  FlutterKey("navitem-received_payments"))
    case ReceivedPaymentPage =>
      LocatorPair(XPath(ID_PREFIX_SINGLE + "screen_receivedpayment_list" + ID_SUFFIX_SINGLE),
                  FlutterKey("screen_receivedpayment_list"))
    case RequestedPayment =>
      LocatorPair(XPath(ID_PREFIX_SINGLE + "navitem-requested_payments" + ID_SUFFIX_SINGLE),
                  FlutterKey("navitem-requested_payments"))
    case RequestedPaymentPage =>
      LocatorPair(XPath(ID_PREFIX_SINGLE + "screen_paymentrequest_list" + ID_SUFFIX_SINGLE),
                  FlutterKey("screen_paymentrequest_list"))
    case PaymentLink =>
      LocatorPair(XPath(ID_PREFIX_SINGLE + "navitem-payment_links" + ID_SUFFIX_SINGLE),
                  FlutterKey("navitem-payment_links"))
    case PaymentLinkPage =>
      LocatorPair(XPath(ID_PREFIX_SINGLE + "screen_paymentlink_landing" + ID_SUFFIX_SINGLE),
                  FlutterKey("screen_paymentlink_landing"))
  }

  /** The locator each getter returns on platform `p`. */
  function Locator(p: Platform, e: Element): By {
    ForPlatform(p, Pair(e))
  }

  /** Every getter gives WEB and MOBILE_WEB one locator and ANDROID and IOS
      another. */
  lemma LocatorsPaired(e: Element)
    ensures Locator(WEB, e) == Locator(MOBILE_WEB, e)
    ensures Locator(ANDROID, e) == Locator(IOS, e)
  {
    PlatformsPair(Pair(e));
  }

  /** The semantics identifier an xpath selects on, with the value quoted
      either way, or None for any other xpath. */
  function IdentifierOf(xpath: string): (r: Option<string>)
    ensures r.Some? ==> xpath == ID_PREFIX_SINGLE + r.value + ID_SUFFIX_SINGLE
                        || xpath == ID_PREFIX_DOUBLE + r.value + ID_SUFFIX_DOUBLE
  {
    match Between(ID_PREFIX_SINGLE, ID_SUFFIX_SINGLE, xpath)
    case Some(id) => Some(id)
    case None => Between(ID_PREFIX_DOUBLE, ID_SUFFIX_DOUBLE, xpath)
  }

  /** The navigation items, the screens and the app tour: the elements the
      web locator finds by semantics identifier. */
  predicate ByIdentifier(e: Element) {
    e != NextButton && e != SkipButton
  }

  /** An identifier in single quotes reads back as itself. */
  lemma {:induction false} SingleQuoted(id: string)
    ensures IdentifierOf(ID_PREFIX_SINGLE + id + ID_SUFFIX_SINGLE) == Some(id)
  {
    BetweenRoundTrip(ID_PREFIX_SINGLE, ID_SUFFIX_SINGLE, id);
  }

  /** An identifier in double quotes reads back as itself: the
      single-quoted reading does not match it. */
  lemma {:induction false} DoubleQuoted(id: string)
    ensures IdentifierOf(ID_PREFIX_DOUBLE + id + ID_SUFFIX_DOUBLE) == Some(id)
  {
    var x := ID_PREFIX_DOUBLE + id + ID_SUFFIX_DOUBLE;
    assert x[|ID_PREFIX_SINGLE| - 1] == '"';
    assert Between(ID_PREFIX_SINGLE, ID_SUFFIX_SINGLE, x).None? by {
      if |ID_PREFIX_SINGLE| + |ID_SUFFIX_SINGLE| <= |x| {
        assert x[..|ID_PREFIX_SINGLE|][|ID_PREFIX_SINGLE| - 1] != ID_PREFIX_SINGLE[|ID_PREFIX_SINGLE| - 1];
      }
    }
    BetweenRoundTrip(ID_PREFIX_DOUBLE, ID_SUFFIX_DOUBLE, id);
  }

  /** For navigation items, screens and the app tour, the identifier the web
      xpath selects on is the native flutter key. */
  lemma {:induction false} IdentifierIsFlutterKey(e: Element)
    requires ByIdentifier(e)
    ensures Pair(e).web.XPath? && Pair(e).native.FlutterKey?
    ensures IdentifierOf(Pair(e).web.expr) == Some(Pair(e).native.key)
  {
    var key := Pair(e).native.key;
    if e == PendingActionPage {
      assert Pair(e).web.expr == ID_PREFIX_DOUBLE + key + ID_SUFFIX_DOUBLE;
      DoubleQuoted(key);
    } else {
      assert Pair(e).web.expr == ID_PREFIX_SINGLE + key + ID_SUFFIX_SINGLE;
      SingleQuoted(key);
    }
  }

  /** The page object. Driver and platform are read once, when it is built. */
  class DashBoard {
    /** `DriverFactory.getDriver()` when the page was built. */
    const driver: Option<Handle>
    const platform: Platform

    constructor(driver: Option<Handle>, platform: Platform)
      ensures this.driver == driver && this.platform == platform
    {
      this.driver := driver;
      this.platform := platform;
    }

    /** `executeJsQueryIfWeb`: only on WEB, and only when `js.Query` is set
        and not empty, runs it on the page's driver; a failure is only
        logged. */
    method ExecuteJsQueryIfWeb(remote: Remote, src: Sources)
      modifies remote`events
      ensures var query := Get(src, "js.Query");
              platform != WEB || query.None? || query.value == [] ==> remote.events == old(remote.events)
      ensures var query := Get(src, "js.Query");
              platform == WEB && query.Some? && query.value != [] ==>
                remote.events == old(remote.events) + Run(remote.answer, driver, [Script(query, None)]).events
    {
      if platform == WEB {
        var query := Get(src, "js.Query");
        if query.Some? && query.value != [] {
          var _ := remote.Try1(driver, Script(query, None));
        }
      }
    }

    /** `isElementVisible`: what `isDisplayed` reports, or false on any
        exception. */
    method IsElementVisible(remote: Remote, locator: By) returns (visible: bool)
      modifies remote`events
      ensures var trace := Run(remote.answer, driver, [Find(locator), IsDisplayed(locator)]);
              remote.events == old(remote.events) + trace.events
              && (visible <==> trace.error.None? && remote.displayed(driver.value, locator))
    {
      var err := remote.Try2(driver, Find(locator), IsDisplayed(locator));
      visible := err.None? && remote.displayed(driver.value, locator);
    }

    /** `clickElement`: find and click with no wait first; a failure is only
        logged. */
    method ClickElement(remote: Remote, locator: By)
      modifies remote`events
      ensures remote.events == old(remote.events) + Run(remote.answer, driver, [Find(locator), Click(locator)]).events
    {
      var _ := remote.Try2(driver, Find(locator), Click(locator));
    }

    /** `clickPendingAction`: `jsClick` on the pending-actions item, whose
        failure propagates. */
    method ClickPendingAction(remote: Remote, jsu: JavaScriptUtils, src: Sources) returns (r: Outcome<Ex>)
      modifies remote`events
      ensures var loc := Locator(platform, PendingAction);
              var trace := Run(remote.answer, jsu.driver, JsClickCalls(jsu.platform, Get(src, "js.Query"), loc));
              remote.events == old(remote.events) + trace.events
              && (r.Pass? <==> trace.error.None?)
              && (r.Fail? ==> r.error == Runtime(JsClickFailure(loc, trace.error.value), trace.error))
    {
      r := jsu.JsClick(remote, src, Locator(platform, PendingAction));
    }
  }

  /** Building the page on thread `t`: the driver is the thread's
      DriverFactory driver; the platform is `-Dplatform` (default WEB), and
      an invalid one makes construction throw. */
  method Open(factory: DriverFactory, t: ThreadId, system: Table) returns (r: Result<DashBoard, Ex>)
    ensures r.Failure? <==> FromSystemProperty(system).Failure?
    ensures r.Failure? ==> r.error == FromSystemProperty(system).error
    ensures r.Success? ==> fresh(r.value) && r.value.driver == factory.GetDriver(t)
                           && Success(r.value.platform) == FromSystemProperty(system)
  {
    var driver := factory.GetDriver(t);
    var platform := FromSystemProperty(system);
    if platform.Failure? {
      return Failure(platform.error);
    }
    var page := new DashBoard(driver, platform.value);
    r := Success(page);
  }
}
