/** The session requests `DriverFactory` assembles for Chrome, Android and
    iOS from configuration values. */
module Capabilities {
  import opened Wrappers
  import opened Text
  import opened Config

  /** The Appium server used when `appium.url` is not configured. */
  const DEFAULT_APPIUM_URL: string := "http://127.0.0.1:4723"

  const NOTIFICATIONS_PREF: string := "profile.default_content_setting_values.notifications"

  /** `ChromeOptions`: command-line arguments and the `prefs` experimental
      option. */
  datatype ChromeCaps = ChromeCaps(arguments: seq<string>, prefs: map<string, int>)

  /** `UiAutomator2Options`; an option set to null is absent. */
  datatype AndroidCaps = AndroidCaps(
    udid: Option<string>,
    appPackage: Option<string>,
    appActivity: Option<string>,
    automationName: string,
    platformName: string,
    noReset: bool)

  /** `XCUITestOptions`. */
  datatype IOSCaps = IOSCaps(deviceName: Option<string>, bundleId: string, automationName: string)

  /** A request for a new driver session, with the server it goes to. */
  datatype SessionSpec =
    | ChromeSession(chrome: ChromeCaps)
    | AndroidSession(android: AndroidCaps, androidEndpoint: string)
    | IOSSession(ios: IOSCaps, iosEndpoint: string)

  /** Chrome with notification pop-ups disabled and blocked (2 = block). */
  function ChromeOptions(): (r: ChromeCaps)
    ensures "--disable-notifications" in r.arguments && |r.arguments| == 1
    ensures r.prefs.Keys == {NOTIFICATIONS_PREF} && r.prefs[NOTIFICATIONS_PREF] == 2
  {
    ChromeCaps(["--disable-notifications"], map[NOTIFICATIONS_PREF := 2])
  }

  /** `Boolean.parseBoolean`: true exactly for "true" in any letter case. */
  function ParseBoolean(s: string): (r: bool)
    ensures r <==> Upper(s) == "TRUE"
  {
    EqualsIgnoreCase(s, "true")
  }

  /** The Android capabilities: device, package and activity from
      configuration, the Flutter automation engine on Android, and `noReset`
      parsed from configuration with "true" as its default. */
  function AndroidOptions(src: Sources): (r: AndroidCaps)
    ensures r.udid == Get(src, "android.udid")
    ensures r.appPackage == Get(src, "appPackage")
    ensures r.appActivity == Get(src, "appActivity")
    ensures r.automationName == "Flutter" && r.platformName == "Android"
    ensures r.noReset <==> ParseBoolean(GetOr(src, "noReset", "true"))
  {
    AndroidCaps(
      Get(src, "android.udid"),
      Get(src, "appPackage"),
      Get(src, "appActivity"),
      "Flutter",
      "Android",
      ParseBoolean(GetOr(src, "noReset", "true")))
  }

  /** Without a `noReset` setting the app state is kept between sessions;
      with one, only a case-insensitive "true" keeps it. */
  lemma {:induction false} NoResetDefaultsToTrue(src: Sources)
    ensures Get(src, "noReset").None? ==> AndroidOptions(src).noReset
    ensures Get(src, "noReset").Some? ==>
              (AndroidOptions(src).noReset <==> EqualsIgnoreCase(Get(src, "noReset").value, "true"))
  {
    if Get(src, "noReset").None? {
      assert GetOr(src, "noReset", "true") == "true";
      var u := Upper("true");
      assert u[0] == 'T' && u[1] == 'R' && u[2] == 'U' && u[3] == 'E';
      assert u == "TRUE";
    }
  }

  /** The iOS capabilities: device name from configuration, the fixed bundle
      id and the Flutter automation engine. */
  function IOSOptions(src: Sources): (r: IOSCaps)
    ensures r.deviceName == Get(src, "ios.deviceName")
    ensures r.bundleId == "com.briskpe.app" && r.automationName == "Flutter"
  {
    IOSCaps(Get(src, "ios.deviceName"), "com.briskpe.app", "Flutter")
  }

  /** `Config.get("appium.url", "http://127.0.0.1:4723")`. */
  function Endpoint(src: Sources): (r: string)
    ensures Get(src, "appium.url").None? ==> r == DEFAULT_APPIUM_URL
    ensures Get(src, "appium.url").Some? ==> r == Get(src, "appium.url").value
  {
    GetOr(src, "appium.url", DEFAULT_APPIUM_URL)
  }
}
