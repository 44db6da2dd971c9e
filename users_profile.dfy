/** The `UsersProfile` page: profile menu, team-member invitation and
    account locators, and helpers that log failures instead of throwing. */
module UsersProfile {
  import opened Wrappers
  import opened Errors
  import opened Text
  import opened Platforms
  import opened Config
  import opened Locators
  import opened ThreadLocals
  import opened Backend
  import opened DriverManager
  import opened JavaScriptUtils
  import RandomData
  import BasePage

  /** The left-hand menu entries, each found by its label. */
  datatype MenuEntry =
    | BusinessProfile | VirtualAccounts | ManageTeam | SettlementTimelines
    | ReferAndEarn | AboutBriskpe | HelpAndSupport

  function MenuLabel(m: MenuEntry): string {
    match m
    case BusinessProfile => "Business Profile"
    case VirtualAccounts => "Virtual Accounts"
    case ManageTeam => "Manage Team"
    case SettlementTimelines => "Settlement Timelines"
    case ReferAndEarn => "Refer and Earn"
    case AboutBriskpe => "About BRISKPE"
    case HelpAndSupport => "Help and Support"
  }

  /** The fields of the invite-team-member form, each found by its label. */
  datatype InviteField = FirstName | MiddleName | LastName | Email | MobileNumber

  function FieldLabel(f: InviteField): string {
    match f
    case FirstName => "firstName"
    case MiddleName => "middleName"
    case LastName => "lastName"
    case Email => "email"
    case MobileNumber => "mobileNumber"
  }

  const MENU_PREFIX: string := "//flt-semantics[contains(@aria-label,'"
  const FIELD_PREFIX: string := "//input[contains(@aria-label,'"
  const LABEL_SUFFIX: string := "')]"

  /** `getMenuItemLocator(labelText)`: on browsers an xpath with the label
      between fixed text, on the native apps the label as a flutter key. */
  function MenuItemLocator(p: Platform, labelText: string): (r: By)
    ensures p.IsBrowser() ==> r.XPath? && Between(MENU_PREFIX, LABEL_SUFFIX, r.expr) == Some(labelText)
    ensures !p.IsBrowser() ==> r == FlutterKey(labelText)
  {
    BetweenRoundTrip(MENU_PREFIX, LABEL_SUFFIX, labelText);
    ForPlatform(p, LocatorPair(XPath(MENU_PREFIX + labelText + LABEL_SUFFIX), FlutterKey(labelText)))
  }

  /** `getInviteTeamMemberField(labelText)`: the same shape with an input
      element on browsers. */
  function InviteTeamMemberField(p: Platform, labelText: string): (r: By)
    ensures p.IsBrowser() ==> r.XPath? && Between(FIELD_PREFIX, LABEL_SUFFIX, r.expr) == Some(labelText)
    ensures !p.IsBrowser() ==> r == FlutterKey(labelText)
  {
    BetweenRoundTrip(FIELD_PREFIX, LABEL_SUFFIX, labelText);
    ForPlatform(p, LocatorPair(XPath(FIELD_PREFIX + labelText + LABEL_SUFFIX), FlutterKey(labelText)))
  }

  /** Different labels never share a menu-item or a form-field locator. */
  lemma {:induction false} TemplatesInjective(p: Platform, a: string, b: string)
    requires a != b
    ensures MenuItemLocator(p, a) != MenuItemLocator(p, b)
    ensures InviteTeamMemberField(p, a) != InviteTeamMemberField(p, b)
  {
    if p.IsBrowser() {
      assert Between(MENU_PREFIX, LABEL_SUFFIX, MenuItemLocator(p, a).expr) == Some(a);
      assert Between(FIELD_PREFIX, LABEL_SUFFIX, InviteTeamMemberField(p, a).expr) == Some(a);
    }
  }

  /** The elements the page's locator getters name. */
  datatype Element =
    | ProfileIcon | ProfileLogOutButton | InsideProfileLogOutButton
    | ProfileAndSettingButton | ProfileScreen | DeleteAccount
    | VirtualAccountsPage | ManageTeamPage | AddTeamMember
    | InviteMemberPopup | InviteButton | InviteSuccessPopup
    | Menu(entry: MenuEntry)
    | Field(field: InviteField)

  /** The two native keys that more than one getter uses. */
  const PROFILE_USERNAME_KEY: string := "profile_username"
  const VIRTUAL_ACCOUNT_LIST_KEY: string := "screen_virtualaccount_list"

  /** The xpath each fixed getter uses on WEB and MOBILE_WEB. */
  function WebLocator(e: Element): By
    requires !e.Menu? && !e.Field?
  {
    match e
    case ProfileIcon =>
      XPath("//flt-semantics[contains(@aria-label,'Profile')]")
    case ProfileLogOutButton =>
      XPath("//flt-semantics[contains(text(),'Log Out')]")
    case InsideProfileLogOutButton =>
      XPath("//flt-semantics[contains(text(),'Log out')]")
    case ProfileAndSettingButton =>
      XPath("//flt-semantics[contains(text(),'Profile and Settings')]")
    case ProfileScreen =>
      XPath("//flt-semantics[@flt-semantics-identifier='screen_profile_menu']")
    case DeleteAccount =>
      XPath("//flt-semantics[contains(text(),'Delete Account')]")
    case VirtualAccountsPage =>
      XPath("//flt-semantics[@flt-semantics-identifier='screen_virtualaccount_list']")
    case ManageTeamPage =>
      XPath("//flt-semantics[@flt-semantics-identifier='screen_teammember_list']")
    case AddTeamMember =>
      XPath("//flt-semantics[@flt-semantics-identifier='btn_add_member']//flt-semantics")
    case InviteMemberPopup =>
      XPath("//flt-semantics[contains(@aria-label,'Invite Member')]")
    case InviteButton =>
      XPath("//flt-semantics[@flt-semantics-identifier='btn_invite']//flt-semantics")
    case InviteSuccessPopup =>
      XPath("//span[contains(text(),'Invite sent on registered email successfully!')]")
  }

  /** The Flutter key each fixed getter uses on ANDROID and IOS. */
  function NativeKey(e: Element): string
    requires !e.Menu? && !e.Field?
  {
    match e
    case ProfileIcon => "user_profile_icon"
    case ProfileLogOutButton => "logout_button"
    case InsideProfileLogOutButton => "logout_button"
    case ProfileAndSettingButton => "profile_settings_button"
    case ProfileScreen => PROFILE_USERNAME_KEY
    case DeleteAccount => PROFILE_USERNAME_KEY
    case VirtualAccountsPage => VIRTUAL_ACCOUNT_LIST_KEY
    case ManageTeamPage => "screen_teammember_list"
    case AddTeamMember => "btn_add_member"
    case InviteMemberPopup => "btn_close"
    case InviteButton => "btn_invite"
    case InviteSuccessPopup => VIRTUAL_ACCOUNT_LIST_KEY
  }

  /** The fixed web and native locators of an element with a getter of its
      own. */
  function FixedPair(e: Element): LocatorPair
    requires !e.Menu? && !e.Field?
  {
    LocatorPair(WebLocator(e), FlutterKey(NativeKey(e)))
  }

  /** The locator each getter returns on platform `p`. */
  function Locator(p: Platform, e: Element): By {
    match e
    case Menu(m) => MenuItemLocator(p, MenuLabel(m))
    case Field(f) => InviteTeamMemberField(p, FieldLabel(f))
    case _ => ForPlatform(p, FixedPair(e))
  }

  /** An element with a getter of its own takes its platform's half of its
      fixed pair. */
  lemma FixedLocator(p: Platform, e: Element)
    requires !e.Menu? && !e.Field?
    ensures Locator(p, e) == ForPlatform(p, FixedPair(e))
  {
  }

  /** Every getter gives WEB and MOBILE_WEB one locator and ANDROID and IOS
      another. */
  lemma LocatorsPaired(e: Element)
    ensures Locator(WEB, e) == Locator(MOBILE_WEB, e)
    ensures Locator(ANDROID, e) == Locator(IOS, e)
  {
    if e.Menu? {
      TemplatesPaired(MenuLabel(e.entry));
    } else if e.Field? {
      TemplatesPaired(FieldLabel(e.field));
    } else {
      FixedLocator(WEB, e);
      FixedLocator(MOBILE_WEB, e);
      FixedLocator(ANDROID, e);
      FixedLocator(IOS, e);
      PlatformsPair(FixedPair(e));
    }
  }

  /** Both templates give the browsers one locator and the apps another. */
  lemma TemplatesPaired(labelText: string)
    ensures MenuItemLocator(WEB, labelText) == MenuItemLocator(MOBILE_WEB, labelText)
    ensures MenuItemLocator(ANDROID, labelText) == MenuItemLocator(IOS, labelText)
    ensures InviteTeamMemberField(WEB, labelText) == InviteTeamMemberField(MOBILE_WEB, labelText)
    ensures InviteTeamMemberField(ANDROID, labelText) == InviteTeamMemberField(IOS, labelText)
  {
  }

  /** The menu entry a label names, if any. */
  function MenuOf(labelText: string): (r: Option<MenuEntry>)
    ensures r.Some? ==> MenuLabel(r.value) == labelText
  {
    if labelText == "Business Profile" then Some(BusinessProfile)
    else if labelText == "Virtual Accounts" then Some(VirtualAccounts)
    else if labelText == "Manage Team" then Some(ManageTeam)
    else if labelText == "Settlement Timelines" then Some(SettlementTimelines)
    else if labelText == "Refer and Earn" then Some(ReferAndEarn)
    else if labelText == "About BRISKPE" then Some(AboutBriskpe)
    else if labelText == "Help and Support" then Some(HelpAndSupport)
    else None
  }

  /** Every menu label names its own entry and no other. */
  lemma MenuLabelDecodes(m: MenuEntry)
    ensures MenuOf(MenuLabel(m)) == Some(m)
  {
  }

  /** Different entries have different labels. */
  lemma LabelsDistinct(m1: MenuEntry, m2: MenuEntry)
    requires m1 != m2
    ensures MenuLabel(m1) != MenuLabel(m2)
  {
    MenuLabelDecodes(m1);
    MenuLabelDecodes(m2);
  }

  /** The menu entries resolve to pairwise different locators. */
  lemma {:induction false} MenuEntriesDistinct(p: Platform, m1: MenuEntry, m2: MenuEntry)
    requires m1 != m2
    ensures Locator(p, Menu(m1)) != Locator(p, Menu(m2))
  {
    LabelsDistinct(m1, m2);
    TemplatesInjective(p, MenuLabel(m1), MenuLabel(m2));
  }

  /** On the native apps every element with a getter of its own is looked
      up by its Flutter key. */
  lemma NativeLocator(p: Platform, e: Element)
    requires !p.IsBrowser() && !e.Menu? && !e.Field?
    ensures Locator(p, e) == FlutterKey(NativeKey(e))
  {
  }

  /** On the native apps the profile screen and the delete-account entry are
      looked up by the same key, and so are the virtual-accounts page and the
      invite-success popup. */
  lemma NativeKeysShared(p: Platform)
    requires !p.IsBrowser()
    ensures Locator(p, ProfileScreen) == Locator(p, DeleteAccount)
    ensures Locator(p, VirtualAccountsPage) == Locator(p, InviteSuccessPopup)
  {
    assert NativeKey(ProfileScreen) == NativeKey(DeleteAccount);
    assert NativeKey(VirtualAccountsPage) == NativeKey(InviteSuccessPopup);
    NativeLocator(p, ProfileScreen);
    NativeLocator(p, DeleteAccount);
    NativeLocator(p, VirtualAccountsPage);
    NativeLocator(p, InviteSuccessPopup);
  }

  /** What `fillInviteTeamMemberFormWithRandomData` types, field by field. */
  function FormEntries(first: string, middle: string, last: string, mobile: string): (r: seq<(InviteField, string)>)
    ensures |r| == 5
    ensures r[3].0 == Email && r[4].0 == MobileNumber
    ensures Between("", RandomData.EMAIL_DOMAIN, r[3].1) == Some(r[4].1)
  {
    [(FirstName, first), (MiddleName, middle), (LastName, last),
     (Email, RandomData.EmailFor(mobile)), (MobileNumber, mobile)]
  }

  /** The page object. Driver and platform are read once, when it is built. */
  class UsersProfile {
    /** `DriverManager.getDriver()` when the page was built. */
    const driver: Option<Handle>
    const platform: Platform

    constructor(driver: Option<Handle>, platform: Platform)
      ensures this.driver == driver && this.platform == platform
    {
      this.driver := driver;
      this.platform := platform;
    }

    /** The private `clickElement`: `jsClick` on browsers (with the driver
        and platform JavaScriptUtils captured), a native find-and-click on
        the page's driver otherwise. Failures are only logged. */
    method ClickElement(remote: Remote, jsu: JavaScriptUtils, src: Sources, locator: By)
      modifies remote`events
      ensures platform.IsBrowser() ==>
                remote.events == old(remote.events)
                  + Run(remote.answer, jsu.driver, JsClickCalls(jsu.platform, Get(src, "js.Query"), locator)).events
      ensures !platform.IsBrowser() ==>
                remote.events == old(remote.events) + Run(remote.answer, driver, [Find(locator), Click(locator)]).events
    {
      if platform.IsBrowser() {
        var _ := jsu.JsClick(remote, src, locator);
      } else {
        var _ := remote.Try2(driver, Find(locator), Click(locator));
      }
    }

    /** The private `isElementVisible`: what `isDisplayed` reports, or false
        when finding the element fails. */
    method IsElementVisible(remote: Remote, locator: By) returns (visible: bool)
      modifies remote`events
      ensures var trace := Run(remote.answer, driver, [Find(locator), IsDisplayed(locator)]);
              remote.events == old(remote.events) + trace.events
              && (visible <==> trace.error.None? && remote.displayed(driver.value, locator))
    {
      var err := remote.Try2(driver, Find(locator), IsDisplayed(locator));
      visible := err.None? && remote.displayed(driver.value, locator);
    }

    /** `clickProfileAndSettingButton`: on browsers a mouse move onto the
        button and a double click, true exactly when neither fails; on the
        native apps the failure-swallowing click, so always true. */
    method ClickProfileAndSettingButton(remote: Remote, jsu: JavaScriptUtils, src: Sources) returns (ok: bool)
      modifies remote`events
      ensures var loc := Locator(platform, ProfileAndSettingButton);
              var trace := Run(remote.answer, driver, [Find(loc), MoveTo(loc), DoubleClick]);
              platform.IsBrowser() ==> remote.events == old(remote.events) + trace.events
                                       && (ok <==> trace.error.None?)
      ensures !platform.IsBrowser() ==> ok
      ensures var loc := Locator(platform, ProfileAndSettingButton);
              !platform.IsBrowser() ==>
                remote.events == old(remote.events) + Run(remote.answer, driver, [Find(loc), Click(loc)]).events
    {
      var loc := Locator(platform, ProfileAndSettingButton);
      if platform.IsBrowser() {
        var err := remote.Try3(driver, Find(loc), MoveTo(loc), DoubleClick);
        ok := err.None?;
      } else {
        ClickElement(remote, jsu, src, loc);
        ok := true;
      }
    }

    /** The private `enterText`: find, clear, type; failures are only
        logged. */
    method EnterText(remote: Remote, locator: By, text: string)
      modifies remote`events
      ensures remote.events == old(remote.events) + Run(remote.answer, driver, BasePage.EnterTextCalls(text)(locator)).events
    {
      var _ := remote.Try3(driver, Find(locator), Clear(locator), SendKeys(locator, text));
    }

    /** The events of typing one form entry. */
    function Typed(answer: Answer, entry: (InviteField, string)): seq<Event> {
      Run(answer, driver, BasePage.EnterTextCalls(entry.1)(InviteTeamMemberField(platform, FieldLabel(entry.0)))).events
    }

    /** `fillInviteTeamMemberFormWithRandomData`: every field is typed in
        order whatever happens to the others, and the email typed is the
        mobile number typed at gmail.com. */
    method FillInviteTeamMemberForm(remote: Remote, firstLetters: string, middleLetters: string,
                                    lastLetters: string, digits: string)
      requires |firstLetters| == 3 && IsLetters(firstLetters)
      requires |middleLetters| == 2 && IsLetters(middleLetters)
      requires |lastLetters| == 4 && IsLetters(lastLetters)
      requires |digits| == 9 && IsDigits(digits)
      modifies remote`events
      ensures var e := FormEntries(RandomData.RandomFirstName(firstLetters), RandomData.RandomMiddleName(middleLetters),
                                   RandomData.RandomLastName(lastLetters), RandomData.RandomMobileNumber(digits));
              remote.events == old(remote.events) + Typed(remote.answer, e[0]) + Typed(remote.answer, e[1])
                + Typed(remote.answer, e[2]) + Typed(remote.answer, e[3]) + Typed(remote.answer, e[4])
    {
      var mobile := RandomData.RandomMobileNumber(digits);
      var e := FormEntries(RandomData.RandomFirstName(firstLetters), RandomData.RandomMiddleName(middleLetters),
                           RandomData.RandomLastName(lastLetters), mobile);
      EnterText(remote, InviteTeamMemberField(platform, FieldLabel(e[0].0)), e[0].1);
      EnterText(remote, InviteTeamMemberField(platform, FieldLabel(e[1].0)), e[1].1);
      EnterText(remote, InviteTeamMemberField(platform, FieldLabel(e[2].0)), e[2].1);
      EnterText(remote, InviteTeamMemberField(platform, FieldLabel(e[3].0)), e[3].1);
      EnterText(remote, InviteTeamMemberField(platform, FieldLabel(e[4].0)), e[4].1);
    }
  }

  /** Building the page on thread `t`: the driver is the thread's
      DriverManager driver; the platform is `-Dplatform` (default WEB), and
      an invalid one makes construction throw. */
  method Open(manager: DriverManager, t: ThreadId, system: Table) returns (r: Result<UsersProfile, Ex>)
    ensures r.Failure? <==> FromSystemProperty(system).Failure?
    ensures r.Failure? ==> r.error == FromSystemProperty(system).error
    ensures r.Success? ==> fresh(r.value) && r.value.driver == manager.GetDriver(t)
                           && Success(r.value.platform) == FromSystemProperty(system)
  {
    var platform := FromSystemProperty(system);
    if platform.Failure? {
      return Failure(platform.error);
    }
    var page := new UsersProfile(manager.GetDriver(t), platform.value);
    r := Success(page);
  }
}
