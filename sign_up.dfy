/** The `SignUp` page: its locators, the action methods that rethrow, the
    checks that answer false on failure, and `selectAccountType` with its
    single JavaScript fallback. */
module SignUp {
  import opened Wrappers
  import opened Errors
  import opened Text
  import opened Platforms
  import opened Config
  import opened Locators
  import opened ThreadLocals
  import opened Backend
  import opened DriverFactory
  import opened JavaScriptUtils
  import RandomData
  import BasePage

  /** The elements the page's locator getters name. */
  datatype Element =
    | MobileNumberField | EmailField | TnCCheckbox | WhatsappCheckbox
    | SignUpPage | SignUpLink | OtpButton | SelectAccountTypePage
    | AccountType | ContinueButton

  /** The web and native locator of each element. */
  function Pair(e: Element): LocatorPair {
    match e
    case MobileNumberField =>
      LocatorPair(XPath("//input[contains(@aria-label,'mobileNumber')]"), FlutterKey("mobile-number-field"))
    case EmailField =>
      LocatorPair(XPath("//input[contains(@aria-label,'email')]"), FlutterKey("email-field"))
    case TnCCheckbox =>
      LocatorPair(XPath("//span[contains(text(),\"I agree to BRISKPE's \")]/.."), FlutterKey("concern-checkbox-1"))
    case WhatsappCheckbox =>
      LocatorPair(XPath("//flt-semantics[contains(@aria-label,\"I agree to receive important\")]"),
                  FlutterKey("concern-checkbox-2"))
    case SignUpPage =>
      LocatorPair(XPath("//flt-semantics[@flt-semantics-identifier='signup-screen']"),
                  FlutterKey("//android.widget.FrameLayout[@resource-id=\"android:id/content\"]"
                             + "/android.widget.FrameLayout/android.widget.FrameLayout"
                             + "/android.view.View/android.view.View/android.view.View"))
    case SignUpLink =>
      LocatorPair(XPath("//flt-semantics[contains(text(),\"Don’t have an account \")]"), FlutterKey("get-otp-button"))
    case OtpButton =>
      LocatorPair(XPath("//flt-semantics[@flt-semantics-identifier=\"btn_submit\"]//flt-semantics"), FlutterKey("btn_submit"))
    case SelectAccountTypePage =>
      LocatorPair(XPath("//flt-semantics[@flt-semantics-identifier=\"screen_kyc_account_type\"]"
                        + "//flt-semantics//span[contains(text(),'Select your account')]"),
                  FlutterKey("screen_kyc_account_type"))
    case AccountType =>
      LocatorPair(XPath("//span[contains(text(),'Company')]/.."), FlutterKey("screen_kyc_account_type"))
    case ContinueButton =>
      LocatorPair(XPath("//flt-semantics[contains(text(),'Continue')]"), FlutterKey("screen_kyc_account_type"))
  }

  /** The locator each getter returns on platform `p`. */
  function Locator(p: Platform, e: Element): By {
    ForPlatform(p, Pair(e))
  }

  /** Every getter gives WEB and MOBILE_WEB one locator and ANDROID and IOS
      another. */
  lemma LocatorsPaired(e: Element)
    ensures Locator(WEB, e) == Locator(MOBILE_WEB, e)
    ensures Locator(ANDROID, e) == Locator(IOS, e)
  {
    PlatformsPair(Pair(e));
  }

  /** On the native apps the select-account-type page, the account-type
      option and the continue button are all looked up by the same key. */
  lemma NativeKeysShared(p: Platform)
    requires !p.IsBrowser()
    ensures Locator(p, AccountType) == Locator(p, SelectAccountTypePage)
    ensures Locator(p, ContinueButton) == Locator(p, SelectAccountTypePage)
  {
  }

  /** The four click actions: wait until clickable, find, click. */
  datatype ClickAction = ClickTnC | ClickWhatsapp | ClickGetOtp | ClickSignUpLink

  function ClickTarget(a: ClickAction): Element {
    match a
    case ClickTnC => TnCCheckbox
    case ClickWhatsapp => WhatsappCheckbox
    case ClickGetOtp => OtpButton
    case ClickSignUpLink => SignUpLink
  }

  /** The four checks: find the element, then ask whether it is displayed or
      enabled. */
  datatype Check = SignUpPageVisible | ContinueButtonEnabled | GetOtpButtonEnabled | SelectAccountTypePageVisible

  function CheckTarget(c: Check): Element {
    match c
    case SignUpPageVisible => SignUpPage
    case ContinueButtonEnabled => ContinueButton
    case GetOtpButtonEnabled => OtpButton
    case SelectAccountTypePageVisible => SelectAccountTypePage
  }

  /** Whether the check asks `isEnabled` rather than `isDisplayed`. */
  predicate AsksEnabled(c: Check) {
    c == ContinueButtonEnabled || c == GetOtpButtonEnabled
  }

  const ACCOUNT_TYPE: string := "Company"
  const SELECT_FAILED: string := "Could not select account type: " + ACCOUNT_TYPE

  /** Whether `catch (ElementNotInteractableException e)` catches `e`. */
  predicate CaughtAsNotInteractable(e: Ex) {
    e.Driver? && IsNotInteractable(e.error.kind)
  }

  /** The failure `clickElementWithJS` ends with, if any: none off WEB, and
      on WEB a failed script wrapped in a RuntimeException. */
  function JsFallbackError(answer: Answer, jsDriver: Option<Handle>, jsPlatform: Platform, loc: By): (r: Option<Ex>)
    ensures jsPlatform != WEB ==> r.None?
    ensures r.Some? ==> r.value.Runtime? && r.value.message == JS_CLICK_FAILED
  {
    if jsPlatform != WEB then None
    else
      match WrapAs(JS_CLICK_FAILED, Run(answer, jsDriver, [Script(Some(DEFAULT_CLICK), Some(loc))]).error)
      case Pass => None
      case Fail(e) => Some(e)
  }

  /** The calls `selectAccountType` makes and the exception its outer
      `catch` receives, if any: the element is found and clicked on the
      factory driver `d`; a click rejected as not interactable is retried
      once through `clickElementWithJS`, whose driver and platform are
      JavaScriptUtils'. */
  function SelectRun(answer: Answer, d: Option<Handle>, loc: By, jsDriver: Option<Handle>, jsPlatform: Platform): (t: Trace)
    ensures |t.events| <= 3
    ensures t.error.None? <==>
              d.Some? && Fault(answer, d.value, Find(loc)).None?
              && (Fault(answer, d.value, Click(loc)).None?
                  || (CaughtAsNotInteractable(Fault(answer, d.value, Click(loc)).value)
                      && JsFallbackError(answer, jsDriver, jsPlatform, loc).None?))
    ensures |t.events| == 3 ==>
              d.Some? && Fault(answer, d.value, Click(loc)).Some?
              && CaughtAsNotInteractable(Fault(answer, d.value, Click(loc)).value)
              && jsDriver.Some? && jsPlatform == WEB
              && t.events[2] == Event(jsDriver.value, Script(Some(DEFAULT_CLICK), Some(loc)))
    ensures t.error.Some? && !CaughtAsNotInteractable(t.error.value) && t.error.value.Driver? ==>
              |t.events| <= 2
  {
    var find := Run(answer, d, [Find(loc)]);
    if find.error.Some? then find
    else
      var click := Run(answer, d, [Click(loc)]);
      if click.error.Some? && CaughtAsNotInteractable(click.error.value) then
        var js := if jsPlatform == WEB then Run(answer, jsDriver, [Script(Some(DEFAULT_CLICK), Some(loc))]).events else [];
        Trace(find.events + click.events + js, JsFallbackError(answer, jsDriver, jsPlatform, loc))
      else Trace(find.events + click.events, click.error)
  }

  /** The only exception that leads to the JavaScript fallback is a click
      rejected as not interactable; a click rejected otherwise makes no
      further call. */
  lemma {:induction false} FallbackOnlyWhenNotInteractable(answer: Answer, h: Handle, loc: By,
                                                          jsDriver: Option<Handle>, jsPlatform: Platform)
    requires Fault(answer, h, Find(loc)).None?
    requires Fault(answer, h, Click(loc)).Some? && !CaughtAsNotInteractable(Fault(answer, h, Click(loc)).value)
    ensures SelectRun(answer, Some(h), loc, jsDriver, jsPlatform)
            == Trace([Event(h, Find(loc)), Event(h, Click(loc))], Fault(answer, h, Click(loc)))
  {
    var click := Run(answer, Some(h), [Click(loc)]);
    assert click == Trace([Event(h, Click(loc))], Fault(answer, h, Click(loc)));
  }

  /** The page object. Driver and platform are read once, when it is built. */
  class SignUp {
    /** `DriverFactory.getDriver()` when the page was built. */
    const driver: Option<Handle>
    const platform: Platform

    constructor(driver: Option<Handle>, platform: Platform)
      ensures this.driver == driver && this.platform == platform
    {
      this.driver := driver;
      this.platform := platform;
    }

    /** `enterMobileNumber()`: clears the field and types a random mobile
        number (drawn from `digits`); a failure is rethrown unchanged. On
        success the page itself is returned for chaining. */
    method EnterMobileNumber(remote: Remote, digits: string) returns (r: Outcome<Ex>)
      requires |digits| == 9 && IsDigits(digits)
      modifies remote`events
      ensures var loc := Locator(platform, MobileNumberField);
              var trace := Run(remote.answer, driver, BasePage.EnterTextCalls(RandomData.RandomMobileNumber(digits))(loc));
              remote.events == old(remote.events) + trace.events && r == Propagate(trace.error)
    {
      var loc := Locator(platform, MobileNumberField);
      var err := remote.Try3(driver, Find(loc), Clear(loc), SendKeys(loc, RandomData.RandomMobileNumber(digits)));
      r := Propagate(err);
    }

    /** `enterEmail()`: clears the field and types a random email (drawn
        from `alphanumerics`); a failure is rethrown unchanged. */
    method EnterEmail(remote: Remote, alphanumerics: string) returns (r: Outcome<Ex>)
      requires |alphanumerics| == 8 && RandomData.IsAsciiAlphanumerics(alphanumerics)
      modifies remote`events
      ensures var loc := Locator(platform, EmailField);
              var trace := Run(remote.answer, driver, BasePage.EnterTextCalls(RandomData.RandomEmail(alphanumerics))(loc));
              remote.events == old(remote.events) + trace.events && r == Propagate(trace.error)
    {
      var loc := Locator(platform, EmailField);
      var err := remote.Try3(driver, Find(loc), Clear(loc), SendKeys(loc, RandomData.RandomEmail(alphanumerics)));
      r := Propagate(err);
    }

    /** `clickTnCCheckbox`, `clickWhatsappCheckbox`, `clickGetOtpButton` and
        `clickSignuptextLink`: wait until clickable, find, click; a failure
        is rethrown unchanged. */
    method ClickWhenClickable(remote: Remote, action: ClickAction) returns (r: Outcome<Ex>)
      modifies remote`events
      ensures var loc := Locator(platform, ClickTarget(action));
              var trace := Run(remote.answer, driver, [WaitClickable(loc), Find(loc), Click(loc)]);
              remote.events == old(remote.events) + trace.events && r == Propagate(trace.error)
    {
      var loc := Locator(platform, ClickTarget(action));
      var err := remote.Try3(driver, WaitClickable(loc), Find(loc), Click(loc));
      r := Propagate(err);
    }

    /** `isSignUpPageVisible`, `isContinueButtonEnable`,
        `isGetOtpButtonClickble` and `isSelectAccountTypePageVisible`: what
        the element reports, or false on any exception. */
    method IsTrue(remote: Remote, check: Check) returns (ok: bool)
      modifies remote`events
      ensures var loc := Locator(platform, CheckTarget(check));
              var ask := if AsksEnabled(check) then IsEnabled(loc) else IsDisplayed(loc);
              var trace := Run(remote.answer, driver, [Find(loc), ask]);
              remote.events == old(remote.events) + trace.events
              && (ok <==> trace.error.None?
                          && (if AsksEnabled(check) then remote.enabled(driver.value, loc)
                              else remote.displayed(driver.value, loc)))
    {
      var loc := Locator(platform, CheckTarget(check));
      var ask := if AsksEnabled(check) then IsEnabled(loc) else IsDisplayed(loc);
      var err := remote.Try2(driver, Find(loc), ask);
      ok := err.None? && (if AsksEnabled(check) then remote.enabled(driver.value, loc)
                          else remote.displayed(driver.value, loc));
    }

    /** `selectAccountType()` on thread `t`: uses the factory's current
        driver rather than the page's; every failure, the fallback's
        included, becomes RuntimeException "Could not select account type:
        Company". */
    method SelectAccountType(remote: Remote, factory: DriverFactory, t: ThreadId, jsu: JavaScriptUtils)
      returns (r: Outcome<Ex>)
      modifies remote`events
      ensures var run := SelectRun(remote.answer, factory.GetDriver(t), Locator(platform, AccountType),
                                   jsu.driver, jsu.platform);
              remote.events == old(remote.events) + run.events && r == WrapAs(SELECT_FAILED, run.error)
    {
      var d := factory.GetDriver(t);
      var loc := Locator(platform, AccountType);
      var err := remote.Try1(d, Find(loc));
      if err.None? {
        err := remote.Try1(d, Click(loc));
        if err.Some? && CaughtAsNotInteractable(err.value) {
          var fallback := jsu.ClickElementWithJS(remote, loc);
          err := if fallback.Pass? then None else Some(fallback.error);
        }
      }
      r := WrapAs(SELECT_FAILED, err);
    }
  }

  /** Building the page on thread `t`: the driver is the thread's
      DriverFactory driver; the platform is `-Dplatform` (default WEB), and
      an invalid one makes construction throw. */
  method Open(factory: DriverFactory, t: ThreadId, system: Table) returns (r: Result<SignUp, Ex>)
    ensures r.Failure? <==> FromSystemProperty(system).Failure?
    ensures r.Failure? ==> r.error == FromSystemProperty(system).error
    ensures r.Success? ==> fresh(r.value) && r.value.driver == factory.GetDriver(t)
                           && Success(r.value.platform) == FromSystemProperty(system)
  {
    var driver := factory.GetDriver(t);
    var platform := FromSystemProperty(system);
    if platform.Failure? {
      return Failure(platform.error);
    }
    var page := new SignUp(driver, platform.value);
    r := Success(page);
  }
}
