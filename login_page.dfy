/** The `LoginPage`: its locators, the WEB-only render trigger before the
    login-tab check, and the input methods, whose failures propagate. */
module LoginPage {
  import opened Wrappers
  import opened Errors
  import opened Platforms
  import opened Config
  import opened Locators
  import opened ThreadLocals
  import opened Backend
  import opened DriverFactory
  import opened JavaScriptUtils
  import BasePage

  /** The elements the page's locator getters name. */
  datatype Element = LoginTab | MobileInput | GetOtpButton | EnterOtpTab | OtpTextField | VerifyButton

  /** The three locators that are the same on every platform. */
  const LOGIN_TAB: By := XPath("//flt-semantics[@flt-semantics-identifier='mobile_number_entry']")
  const ENTER_OTP_TAB: By := XPath("//*[@flt-semantics-identifier='verify_otp']")
  const VERIFY_BUTTON: By := XPath("//*[@flt-semantics-identifier='btn_submit']")

  /** The locator each getter returns on platform `p`. The login tab, the
      enter-OTP tab and the verify button have one locator for every
      platform. */
  function Locator(p: Platform, e: Element): By {
    match e
    case LoginTab => LOGIN_TAB
    case MobileInput =>
      ForPlatform(p, LocatorPair(Css("input[aria-label^='mobileNumber']"), XPath("//*[@key='mobileNumberField']")))
    case GetOtpButton =>
      ForPlatform(p, LocatorPair(XPath("//flt-semantics[normalize-space(text())='Get OTP']"), XPath("//*[@key='getOtpBtn']")))
    case EnterOtpTab => ENTER_OTP_TAB
    case OtpTextField =>
      ForPlatform(p, LocatorPair(XPath("//input[@data-semantics-role='text-field']"), XPath("//*[@key='otpField']")))
    case VerifyButton => VERIFY_BUTTON
  }

  /** Every getter gives WEB and MOBILE_WEB one locator and ANDROID and IOS
      another; three of them give all four platforms the same one. */
  lemma LocatorsPaired(e: Element, p: Platform, q: Platform)
    ensures Locator(WEB, e) == Locator(MOBILE_WEB, e)
    ensures Locator(ANDROID, e) == Locator(IOS, e)
    ensures e == LoginTab || e == EnterOtpTab || e == VerifyButton ==> Locator(p, e) == Locator(q, e)
  {
    match e
    case MobileInput =>
    case GetOtpButton =>
    case OtpTextField =>
    case _ =>
  }

  /** The mobile-number input is found by CSS selector in a browser and by
      xpath in the apps. */
  lemma MobileInputStrategy(p: Platform)
    ensures p.IsBrowser() <==> Locator(p, MobileInput).Css?
    ensures !p.IsBrowser() <==> Locator(p, MobileInput).XPath?
  {
  }

  /** The Flutter Web placeholder clicked to make the semantics tree
      render. */
  const PLACEHOLDER: By := Css("#body > flt-semantics-placeholder")

  /** What `isLoginTabDisplayed` sends: on WEB only, a wait for the
      placeholder and a script click on it; then the login tab is found and
      asked whether it is displayed. */
  function LoginTabCalls(p: Platform, tab: By): (r: seq<Call>)
    ensures p == WEB ==> |r| == 4 && r[0] == WaitPresent(PLACEHOLDER)
                         && r[1] == Script(Some(DEFAULT_CLICK), Some(PLACEHOLDER))
                         && r[2..] == [Find(tab), IsDisplayed(tab)]
    ensures p != WEB ==> r == [Find(tab), IsDisplayed(tab)]
  {
    var check := [Find(tab), IsDisplayed(tab)];
    if p == WEB then [WaitPresent(PLACEHOLDER), Script(Some(DEFAULT_CLICK), Some(PLACEHOLDER))] + check else check
  }

  /** The WEB render trigger: wait for the placeholder, then click it by
      script. */
  const RENDER_TRIGGER: seq<Call> := [WaitPresent(PLACEHOLDER), Script(Some(DEFAULT_CLICK), Some(PLACEHOLDER))]

  /** On WEB the login-tab check is the render trigger followed by the
      check proper: a failing trigger ends it, otherwise the check runs. */
  lemma {:induction false} WebLoginTabRun(answer: Answer, driver: Option<Handle>, tab: By)
    ensures var trigger := Run(answer, driver, RENDER_TRIGGER);
            var whole := Run(answer, driver, LoginTabCalls(WEB, tab));
            (trigger.error.Some? ==> whole == trigger)
            && (trigger.error.None? ==>
                  whole.events == trigger.events + Run(answer, driver, [Find(tab), IsDisplayed(tab)]).events
                  && whole.error == Run(answer, driver, [Find(tab), IsDisplayed(tab)]).error)
  {
    var check := [Find(tab), IsDisplayed(tab)];
    assert LoginTabCalls(WEB, tab) == RENDER_TRIGGER + check;
    if Run(answer, driver, RENDER_TRIGGER).error.Some? {
      RunStopsAtFailure(answer, driver, RENDER_TRIGGER, check);
    } else {
      RunAppend(answer, driver, RENDER_TRIGGER, check);
    }
  }

  /** The render trigger runs a script on WEB and on no other platform,
      MOBILE_WEB included. */
  lemma {:induction false} RenderTriggerOnlyOnWeb(p: Platform, tab: By)
    ensures (exists i :: 0 <= i < |LoginTabCalls(p, tab)| && LoginTabCalls(p, tab)[i].Script?) <==> p == WEB
  {
    var r := LoginTabCalls(p, tab);
    if p == WEB {
      assert 0 <= 1 < |r| && r[1].Script?;
    } else {
      assert !r[0].Script? && !r[1].Script?;
    }
  }

  /** The page object. Driver and platform are read once, when it is built. */
  class LoginPage {
    /** `DriverFactory.getDriver()` when the page was built. */
    const driver: Option<Handle>
    const platform: Platform

    constructor(driver: Option<Handle>, platform: Platform)
      ensures this.driver == driver && this.platform == platform
    {
      this.driver := driver;
      this.platform := platform;
    }

    /** `isLoginTabDisplayed`: what `isDisplayed` reports for the login tab,
        or false on any exception, the render trigger's included. */
    method IsLoginTabDisplayed(remote: Remote) returns (displayed: bool)
      modifies remote`events
      ensures var trace := Run(remote.answer, driver, LoginTabCalls(platform, Locator(platform, LoginTab)));
              remote.events == old(remote.events) + trace.events
              && (displayed <==> trace.error.None? && remote.displayed(driver.value, Locator(platform, LoginTab)))
    {
      var tab := Locator(platform, LoginTab);
      ghost var before := remote.events;
      ghost var triggerEvents: seq<Event> := [];
      if platform == WEB {
        WebLoginTabRun(remote.answer, driver, tab);
        var err := remote.Try2(driver, WaitPresent(PLACEHOLDER), Script(Some(DEFAULT_CLICK), Some(PLACEHOLDER)));
        if err.Some? {
          return false;
        }
        triggerEvents := Run(remote.answer, driver, RENDER_TRIGGER).events;
      }
      var err := remote.Try2(driver, Find(tab), IsDisplayed(tab));
      ConcatAssoc(before, triggerEvents, Run(remote.answer, driver, [Find(tab), IsDisplayed(tab)]).events);
      displayed := err.None? && remote.displayed(driver.value, tab);
    }

    /** `enterMobileNumber(number)`: clears the input and types `number`; a
        failure propagates, and on success the page is returned for
        chaining. */
    method EnterMobileNumber(remote: Remote, number: string) returns (r: Outcome<Ex>)
      modifies remote`events
      ensures var trace := Run(remote.answer, driver, BasePage.EnterTextCalls(number)(Locator(platform, MobileInput)));
              remote.events == old(remote.events) + trace.events && r == Propagate(trace.error)
    {
      var loc := Locator(platform, MobileInput);
      var err := remote.Try3(driver, Find(loc), Clear(loc), SendKeys(loc, number));
      r := Propagate(err);
    }

    /** `tapGetOtp`: find and click the button; a failure propagates. */
    method TapGetOtp(remote: Remote) returns (r: Outcome<Ex>)
      modifies remote`events
      ensures var loc := Locator(platform, GetOtpButton);
              var trace := Run(remote.answer, driver, [Find(loc), Click(loc)]);
              remote.events == old(remote.events) + trace.events && r == Propagate(trace.error)
    {
      var loc := Locator(platform, GetOtpButton);
      var err := remote.Try2(driver, Find(loc), Click(loc));
      r := Propagate(err);
    }

    /** `isEnterOtpTabDisplayed`: what `isDisplayed` reports, or false on any
        exception. */
    method IsEnterOtpTabDisplayed(remote: Remote) returns (displayed: bool)
      modifies remote`events
      ensures var loc := Locator(platform, EnterOtpTab);
              var trace := Run(remote.answer, driver, [Find(loc), IsDisplayed(loc)]);
              remote.events == old(remote.events) + trace.events
              && (displayed <==> trace.error.None? && remote.displayed(driver.value, loc))
    {
      var loc := Locator(platform, EnterOtpTab);
      var err := remote.Try2(driver, Find(loc), IsDisplayed(loc));
      displayed := err.None? && remote.displayed(driver.value, loc);
    }

    /** `enterOTP(otp)`: clears the field and types `otp`; a failure
        propagates, and on success the page is returned for chaining. */
    method EnterOtp(remote: Remote, otp: string) returns (r: Outcome<Ex>)
      modifies remote`events
      ensures var trace := Run(remote.answer, driver, BasePage.EnterTextCalls(otp)(Locator(platform, OtpTextField)));
              remote.events == old(remote.events) + trace.events && r == Propagate(trace.error)
    {
      var loc := Locator(platform, OtpTextField);
      var err := remote.Try3(driver, Find(loc), Clear(loc), SendKeys(loc, otp));
      r := Propagate(err);
    }

    /** `clickVerifyButton`: find and click; a failure propagates. */
    method ClickVerifyButton(remote: Remote) returns (r: Outcome<Ex>)
      modifies remote`events
      ensures var loc := Locator(platform, VerifyButton);
              var trace := Run(remote.answer, driver, [Find(loc), Click(loc)]);
              remote.events == old(remote.events) + trace.events && r == Propagate(trace.error)
    {
      var loc := Locator(platform, VerifyButton);
      var err := remote.Try2(driver, Find(loc), Click(loc));
      r := Propagate(err);
    }

    /** `getVerifyButton`: exactly the locator `clickVerifyButton` uses,
        whatever the platform. */
    function GetVerifyButton(): (r: By)
      ensures r == Locator(platform, VerifyButton)
      ensures forall p :: r == Locator(p, VerifyButton)
    {
      Locator(platform, VerifyButton)
    }
  }

  /** Building the page on thread `t`: the driver is the thread's
      DriverFactory driver; the platform is `-Dplatform` (default WEB), and
      an invalid one makes construction throw. */
  method Open(factory: DriverFactory, t: ThreadId, system: Table) returns (r: Result<LoginPage, Ex>)
    ensures r.Failure? <==> FromSystemProperty(system).Failure?
    ensures r.Failure? ==> r.error == FromSystemProperty(system).error
    ensures r.Success? ==> fresh(r.value) && r.value.driver == factory.GetDriver(t)
                           && Success(r.value.platform) == FromSystemProperty(system)
  {
    var driver := factory.GetDriver(t);
    var platform := FromSystemProperty(system);
    if platform.Failure? {
      return Failure(platform.error);
    }
    var page := new LoginPage(driver, platform.value);
    r := Success(page);
  }
}
